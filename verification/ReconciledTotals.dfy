/** In every reconciled period the customers' attributed costs are the reported totals
    plus the estimates of the providers that reported none. */
module ReconciledTotals {
  import opened Options
  import opened Windows
  import opened Periods
  import opened UsageRecords
  import opened Sums
  import opened Estimates
  import opened Summaries
  import opened UsageTotals
  import opened Reconciliation

  // ----- A period's entries do not depend on the range around it -----

  /** The record completed in the period or has a window that meets it. */
  predicate Touches(r: Record, period: Window) {
    || (r.kind == Attempt && period.start <= r.completedAt < period.end)
    || (WindowStart(r).Some? && WindowEnd(r).Some? && WindowStart(r).value < period.end
         && WindowEnd(r).value > period.start)
  }

  lemma AssignedIsTouching(r: Record, q: Query, p: int)
    requires AlignedRange(q) && IsBoundary(p, q.interval) && q.from <= p < q.to
    ensures Assigned(r, q, p) <==> Touches(r, PeriodAt(p, q.interval))
  {
    hide PeriodStart, NextPeriod;
    var next := NextPeriod(p, q.interval);
    NextIsNearest(p, q.to, q.interval);
    if p <= r.completedAt < next { TilingUnique(r.completedAt, p, q.interval); }
    if Completes(r, q) { Tiling(r.completedAt, q.interval); }
    if Overlaps(r, q) {
      var inside := Max(q.from, WindowStart(r).value);
      Tiling(inside, q.interval);
      NextIsNearest(p, PeriodStart(inside, q.interval), q.interval);
      NextIsNearest(PeriodStart(inside, q.interval), p, q.interval);
    }
  }

  /** The entries of one provider, seen from the period alone. */
  lemma {:induction false} EntriesLocal(records: seq<Record>, q: Query, total: CostTotal)
    requires AlignedRange(q) && q == PlainQuery(q.from, q.to, q.interval, q.groupBy)
    requires IsBoundary(total.period.start, q.interval) && q.from <= total.period.start < q.to
    requires total.period == PeriodAt(total.period.start, q.interval) && IntervalOf(total.period) == q.interval
    ensures Entries(records, TotalQuery(total), total.period.start)
         == WithValue(Entries(records, q, total.period.start), ByProvider, total.provider)
  {
    if records != [] {
      hide Assigned, PeriodStart, NextPeriod;
      var p := total.period.start;
      var last := |records| - 1;
      var rest, r := Entries(records[..last], q, p), records[last];
      EntriesLocal(records[..last], q, total);
      NextIsNearest(p, q.to, q.interval);
      BoundariesClosed(p, q.interval);
      AssignedIsTouching(r, q, p);
      AssignedIsTouching(r, TotalQuery(total), p);
      assert Matches(r, q);
      assert Matches(r, TotalQuery(total)) <==> r.provider == total.provider;
      if Assigned(r, q, p) {
        assert (rest + [r])[..|rest|] == rest;
      }
    }
  }

  // ----- The estimate a total is compared with -----

  lemma {:induction false} RollupsForNonEmpty(entries: seq<Record>, q: Query, totals: seq<CostTotal>, period: Window)
    requires q.groupBy.None? && q.customerId.None?
    ensures RollupsFor(entries, q, totals, period, ["all"]) == [RollupFor(entries, q, totals, period, "all")]
    ensures RollupFor(entries, q, totals, period, "all").estimatedCostUsd == Estimate(entries, period, None)
  {
  }

  lemma ComparedIs(records: seq<Record>, total: CostTotal, interval: Interval)
    requires IsBoundary(total.period.start, interval) && total.period == PeriodAt(total.period.start, interval)
    requires IntervalOf(total.period) == interval
    ensures ComparedEstimate(records, total)
         == Estimate(Entries(records, TotalQuery(total), total.period.start), total.period, None)
  {
    hide PeriodStart, NextPeriod, Entries, Estimate, RollupFor;
    var q, p := TotalQuery(total), total.period.start;
    BoundariesClosed(p, interval);
    NextIsNearest(p, p, interval);
    var entries := Entries(records, q, p);
    assert SummaryFrom(records, q, [], NextPeriod(p, interval)) == [];
    assert Summary(records, q, []) == PeriodRollups(entries, q, [], p) + [];
    if entries == [] {
      NoRecordsNoEstimate(total.period);
    } else {
      RollupsForNonEmpty(entries, q, [], total.period);
    }
  }

  // ----- The customers' estimates of one period -----

  lemma {:induction false} NoneOwned(rollups: seq<Rollup>, interval: Interval, start: int)
    requires forall r :: r in rollups ==> !Owns(r, interval, start)
    ensures EstimatedIn(rollups, interval, start) == 0.0
  {
    if rollups != [] {
      assert rollups[|rollups| - 1] in rollups;
      NoneOwned(rollups[..|rollups| - 1], interval, start);
    }
  }

  lemma {:induction false} AllOwned(rollups: seq<Rollup>, interval: Interval, start: int)
    requires forall r :: r in rollups ==> Owns(r, interval, start)
    ensures EstimatedIn(rollups, interval, start) == EstimatedTotal(rollups)
  {
    if rollups != [] {
      assert rollups[|rollups| - 1] in rollups;
      AllOwned(rollups[..|rollups| - 1], interval, start);
    }
  }

  lemma {:induction false} CustomerPeriodTotal(
    records: seq<Record>, q: Query, totals: seq<CostTotal>, p: int, start: int)
    requires q.groupBy == Some(ByCustomer) && q.customerId.None? && AllBuilt(records)
    requires IsBoundary(p, q.interval) && IsBoundary(start, q.interval) && p <= start < q.to
    ensures EstimatedIn(SummaryFrom(records, q, totals, p), q.interval, start)
         == Estimate(Entries(records, q, start), PeriodAt(start, q.interval), None)
    decreases q.to - p
  {
    hide PeriodStart, NextPeriod, Entries, Estimate, PeriodRollups, Owns, EstimatedIn;
    BoundariesClosed(p, q.interval);
    NextIsNearest(p, start, q.interval);
    var own := PeriodRollups(Entries(records, q, p), q, totals, p);
    var later := SummaryFrom(records, q, totals, NextPeriod(p, q.interval));
    EstimatedInConcat(own, later, q.interval, start);
    OwnedInPeriod(Entries(records, q, p), q, totals, p, start);
    if p == start {
      SummaryWellTimed(records, q, totals, NextPeriod(p, q.interval));
      LaterNotOwned(later, q.interval, start);
      AllOwned(own, q.interval, start);
      PeriodRollupsConserved(records, q, totals, p);
    } else {
      NoneOwned(own, q.interval, start);
      CustomerPeriodTotal(records, q, totals, NextPeriod(p, q.interval), start);
    }
  }

  lemma LaterNotOwned(later: seq<Rollup>, interval: Interval, start: int)
    requires forall r :: r in later ==> start < r.period.start
    ensures EstimatedIn(later, interval, start) == 0.0
  {
    NoneOwned(later, interval, start);
  }

  lemma OwnedInPeriod(entries: seq<Record>, q: Query, totals: seq<CostTotal>, p: int, start: int)
    requires q.groupBy == Some(ByCustomer) && IsBoundary(p, q.interval)
    ensures forall r :: r in PeriodRollups(entries, q, totals, p) ==> (Owns(r, q.interval, start) <==> p == start)
  {
    hide PeriodRollups, PeriodStart, NextPeriod;
    PeriodWellTimed(entries, q, totals, p);
  }

  lemma InitialEstimates(
    records: seq<Record>, totals: seq<CostTotal>, from: int, to: int, interval: Interval, start: int)
    requires interval in {Hour, Day} && AllBuilt(records)
    requires IsBoundary(start, interval) && from <= start < to
    ensures EstimatedIn(InitialRollups(records, totals, from, to), interval, start)
         == Estimate(Entries(records, PlainQuery(from, to, interval, Some(ByCustomer)), start),
           PeriodAt(start, interval), None)
  {
    hide Entries, Estimate, EstimatedIn, PeriodStart, NextPeriod, SummaryFrom;
    var a := Summary(records, PlainQuery(from, to, Hour, None), totals);
    var b := Summary(records, PlainQuery(from, to, Day, None), totals);
    var c := Summary(records, PlainQuery(from, to, Hour, Some(ByCustomer)), totals);
    var d := Summary(records, PlainQuery(from, to, Day, Some(ByCustomer)), totals);
    EstimatedInConcat(a, b, interval, start);
    EstimatedInConcat(a + b, c, interval, start);
    EstimatedInConcat(a + b + c, d, interval, start);
    OtherSummary(records, PlainQuery(from, to, Hour, None), totals, interval, start);
    OtherSummary(records, PlainQuery(from, to, Day, None), totals, interval, start);
    if interval == Hour {
      OtherSummary(records, PlainQuery(from, to, Day, Some(ByCustomer)), totals, interval, start);
    } else {
      OtherSummary(records, PlainQuery(from, to, Hour, Some(ByCustomer)), totals, interval, start);
    }
    Tiling(from, interval);
    var q := PlainQuery(from, to, interval, Some(ByCustomer));
    CustomerPeriodTotal(records, q, totals, PeriodStart(from, interval), start);
  }

  lemma OtherSummary(records: seq<Record>, q: Query, totals: seq<CostTotal>, interval: Interval, start: int)
    requires q.groupBy.None? || q.interval != interval
    ensures EstimatedIn(Summary(records, q, totals), interval, start) == 0.0
  {
    hide Summary, EstimatedIn;
    SummaryShape(records, q, totals);
    NoneOwned(Summary(records, q, totals), interval, start);
  }

  // ----- Reported totals -----

  function Reported(totals: seq<CostTotal>, period: Window): real {
    if totals == [] then 0.0
    else
      var last := |totals| - 1;
      Reported(totals[..last], period) + (if totals[last].period == period then totals[last].amountUsd else 0.0)
  }

  function Reporters(totals: seq<CostTotal>, period: Window): set<Id> {
    set t | t in totals && t.period == period :: t.provider
  }

  /** At most one total per provider for the period. */
  ghost predicate OnePerProvider(totals: seq<CostTotal>, period: Window) {
    forall i, j :: 0 <= i < j < |totals| && totals[i].period == period && totals[j].period == period ==>
      totals[i].provider != totals[j].provider
  }

  function AllProviders(entries: seq<Record>): set<Id> { set r | r in entries :: r.provider }

  lemma {:induction false} VarianceIs(records: seq<Record>, q: Query, totals: seq<CostTotal>, period: Window)
    requires AlignedRange(q) && q == PlainQuery(q.from, q.to, q.interval, q.groupBy) && q.interval in {Hour, Day}
    requires IsBoundary(period.start, q.interval) && q.from <= period.start < q.to
      && period == PeriodAt(period.start, q.interval)
    requires OnePerProvider(totals, period)
    ensures Variance(Adjustments(records, totals), period)
         == Reported(totals, period) - SumOver(Reporters(totals, period),
           EstimateByValue(Entries(records, q, period.start), ByProvider, period))
  {
    var f := EstimateByValue(Entries(records, q, period.start), ByProvider, period);
    hide PeriodStart, NextPeriod, Entries, Estimate, WithValue, SumOver, ComparedEstimate, AlignedRange, PlainQuery,
      EstimateByValue;
    if totals == [] {
      SumZero(Reporters(totals, period), f);
    } else {
      var last := |totals| - 1;
      var rest, total := totals[..last], totals[last];
      assert totals == rest + [total];
      VarianceIs(records, q, rest, period);
      if total.period == period {
        TotalCompared(records, q, total);
        SumRemove(Reporters(totals, period), total.provider, f);
        assert Reporters(totals, period) - {total.provider} == Reporters(rest, period);
      } else {
        assert Reporters(totals, period) == Reporters(rest, period);
      }
    }
  }

  /** A total is compared with the estimate of its provider's entries. */
  lemma TotalCompared(records: seq<Record>, q: Query, total: CostTotal)
    requires AlignedRange(q) && q == PlainQuery(q.from, q.to, q.interval, q.groupBy) && q.interval in {Hour, Day}
    requires IsBoundary(total.period.start, q.interval) && q.from <= total.period.start < q.to
    requires total.period == PeriodAt(total.period.start, q.interval)
    ensures ComparedEstimate(records, total)
         == EstimateByValue(Entries(records, q, total.period.start), ByProvider, total.period)(total.provider)
  {
    hide PeriodStart, NextPeriod, Entries, Estimate, WithValue, ComparedEstimate, AlignedRange;
    IntervalIs(total.period, q.interval);
    ComparedIs(records, total, q.interval);
    EntriesLocal(records, q, total);
  }

  /** The adjustment of a total tells its provider and period, what was reported, the
      estimate of the provider's entries, and the difference. */
  lemma AdjustmentTells(records: seq<Record>, q: Query, total: CostTotal)
    requires AlignedRange(q) && q == PlainQuery(q.from, q.to, q.interval, q.groupBy) && q.interval in {Hour, Day}
    requires IsBoundary(total.period.start, q.interval) && q.from <= total.period.start < q.to
    requires total.period == PeriodAt(total.period.start, q.interval)
    ensures var adjustment := AdjustmentFor(records, total);
            var entries := Entries(records, q, total.period.start);
            && adjustment.provider == total.provider && adjustment.period == total.period
            && adjustment.reportedTotalUsd == total.amountUsd
            && adjustment.estimatedTotalUsd == EstimateByValue(entries, ByProvider, total.period)(total.provider)
            && adjustment.adjustmentUsd == adjustment.reportedTotalUsd - adjustment.estimatedTotalUsd
  {
    TotalCompared(records, q, total);
  }

  lemma IntervalIs(period: Window, interval: Interval)
    requires interval in {Hour, Day} && IsBoundary(period.start, interval) && period == PeriodAt(period.start, interval)
    ensures IntervalOf(period) == interval
  {
    if interval == Day { DayLength(period.start); }
  }

  lemma DayLength(start: int)
    requires IsBoundary(start, Day)
    ensures NextPeriod(start, Day) == start + DAY_MS
  {
    DayUnits(start, start / DAY_MS);
  }

  /** Estimates of the period, less those of the reporters, are those of the rest. */
  lemma RestOfEstimates(entries: seq<Record>, period: Window, reporters: set<Id>)
    ensures Estimate(entries, period, None) - SumOver(reporters, EstimateByValue(entries, ByProvider, period))
         == SumOver(AllProviders(entries) - reporters, EstimateByValue(entries, ByProvider, period))
  {
    hide SumOver, Estimate, WithValue;
    var f := EstimateByValue(entries, ByProvider, period);
    var rest := AllProviders(entries) - reporters;
    assert forall r :: r in entries ==> GroupValue(r, ByProvider) in rest + reporters;
    GroupEstimatesAddUp(entries, ByProvider, period, rest + reporters);
    SumDisjoint(rest, reporters, f);
  }

  /** The main result: after a run over an aligned range, in every hour or day that
      has customer rollups and a reported total, the customers' attributed costs add
      up to the reported totals plus the estimates of the providers without one. */
  lemma ReconciledPeriod(
    records: seq<Record>, totals: seq<CostTotal>, from: int, to: int, result: seq<Rollup>, interval: Interval,
    period: Window)
    requires interval in {Hour, Day} && AllBuilt(records)
    requires from < to && IsBoundary(from, interval) && IsBoundary(to, interval)
    requires OnePerProvider(totals, period) && Reporters(totals, period) != {}
    requires period in CustomerPeriods(InitialRollups(records, totals, from, to), interval)
    requires RunBooked(InitialRollups(records, totals, from, to), result, Adjustments(records, totals))
    ensures var entries := Entries(records, PlainQuery(from, to, interval, Some(ByCustomer)), period.start);
            AttributedIn(result, interval, period.start)
            == Reported(totals, period)
              + SumOver(AllProviders(entries) - Reporters(totals, period), EstimateByValue(entries, ByProvider, period))
  {
    hide SumOver, Estimate, WithValue, EstimateByValue, Entries, EstimatedIn, AttributedIn, PeriodStart, NextPeriod,
      Variance, Reported, Adjustments, InitialRollups;
    var q := PlainQuery(from, to, interval, Some(ByCustomer));
    PeriodsInRange(records, totals, from, to, interval, period);
    assert AlignedRange(q);
    ReportersAdjust(records, totals, period);
    InitialEstimates(records, totals, from, to, interval, period.start);
    VarianceIs(records, q, totals, period);
    RestOfEstimates(Entries(records, q, period.start), period, Reporters(totals, period));
  }

  /** The estimates that the totals of a period are compared with, each total's once. */
  ghost function Compared(totals: seq<CostTotal>, period: Window, f: Id -> real): real {
    if totals == [] then 0.0
    else
      var last := |totals| - 1;
      Compared(totals[..last], period, f) + (if totals[last].period == period then f(totals[last].provider) else 0.0)
  }

  lemma {:induction false} VarianceOfAll(records: seq<Record>, q: Query, totals: seq<CostTotal>, period: Window)
    requires AlignedRange(q) && q == PlainQuery(q.from, q.to, q.interval, q.groupBy) && q.interval in {Hour, Day}
    requires IsBoundary(period.start, q.interval) && q.from <= period.start < q.to
    requires period == PeriodAt(period.start, q.interval)
    ensures Variance(Adjustments(records, totals), period)
      == Reported(totals, period)
         - Compared(totals, period, EstimateByValue(Entries(records, q, period.start), ByProvider, period))
  {
    hide PeriodStart, NextPeriod, Entries, Estimate, WithValue, ComparedEstimate, AlignedRange, PlainQuery;
    hide EstimateByValue;
    if totals != [] {
      var last := |totals| - 1;
      VarianceOfAll(records, q, totals[..last], period);
      if totals[last].period == period { TotalCompared(records, q, totals[last]); }
    }
  }

  /** What a reconciled period holds, with any number of totals per provider. */
  lemma AttributedIs(
    records: seq<Record>, totals: seq<CostTotal>, from: int, to: int, result: seq<Rollup>, interval: Interval,
    period: Window)
    requires interval in {Hour, Day} && AllBuilt(records)
    requires from < to && IsBoundary(from, interval) && IsBoundary(to, interval)
    requires Reporters(totals, period) != {}
    requires period in CustomerPeriods(InitialRollups(records, totals, from, to), interval)
    requires RunBooked(InitialRollups(records, totals, from, to), result, Adjustments(records, totals))
    ensures var entries := Entries(records, PlainQuery(from, to, interval, Some(ByCustomer)), period.start);
            AttributedIn(result, interval, period.start)
            == Estimate(entries, period, None) + Reported(totals, period)
               - Compared(totals, period, EstimateByValue(entries, ByProvider, period))
  {
    hide SumOver, Estimate, WithValue, EstimateByValue, Entries, EstimatedIn, AttributedIn, PeriodStart, NextPeriod;
    hide Variance, Reported, Adjustments, InitialRollups, Compared;
    var q := PlainQuery(from, to, interval, Some(ByCustomer));
    PeriodsInRange(records, totals, from, to, interval, period);
    assert AlignedRange(q);
    ReportersAdjust(records, totals, period);
    InitialEstimates(records, totals, from, to, interval, period.start);
    VarianceOfAll(records, q, totals, period);
  }

  /** With any number of totals per provider, that holds if and only if the estimates
      compared add up to those of the reporting providers, each once. */
  lemma ReconciledPeriodIff(
    records: seq<Record>, totals: seq<CostTotal>, from: int, to: int, result: seq<Rollup>, interval: Interval,
    period: Window)
    requires interval in {Hour, Day} && AllBuilt(records)
    requires from < to && IsBoundary(from, interval) && IsBoundary(to, interval)
    requires Reporters(totals, period) != {}
    requires period in CustomerPeriods(InitialRollups(records, totals, from, to), interval)
    requires RunBooked(InitialRollups(records, totals, from, to), result, Adjustments(records, totals))
    ensures var entries := Entries(records, PlainQuery(from, to, interval, Some(ByCustomer)), period.start);
            var f := EstimateByValue(entries, ByProvider, period);
            var rest := SumOver(AllProviders(entries) - Reporters(totals, period), f);
            && (AttributedIn(result, interval, period.start) == Reported(totals, period) + rest
                <==> Compared(totals, period, f) == SumOver(Reporters(totals, period), f))
  {
    hide SumOver, Estimate, WithValue, EstimateByValue, Entries, AttributedIn, PeriodStart, NextPeriod, Reported;
    hide Adjustments, InitialRollups, Compared, RunBooked, CustomerPeriods;
    var entries := Entries(records, PlainQuery(from, to, interval, Some(ByCustomer)), period.start);
    AttributedIs(records, totals, from, to, result, interval, period);
    RestOfEstimates(entries, period, Reporters(totals, period));
  }

  /** No provider with an estimate has two totals for the period. */
  ghost predicate RepeatsAreFree(totals: seq<CostTotal>, period: Window, f: Id -> real) {
    forall i, j :: 0 <= i < j < |totals| && Repeats(totals[i], totals[j], period) ==> f(totals[j].provider) == 0.0
  }

  predicate Repeats(a: CostTotal, b: CostTotal, period: Window) {
    a.period == b.period == period && a.provider == b.provider
  }

  lemma {:induction false} ComparedOnce(totals: seq<CostTotal>, period: Window, f: Id -> real)
    requires forall p :: p in Reporters(totals, period) ==> 0.0 <= f(p)
    ensures SumOver(Reporters(totals, period), f) <= Compared(totals, period, f)
    ensures Compared(totals, period, f) == SumOver(Reporters(totals, period), f) <==> RepeatsAreFree(totals, period, f)
  {
    hide SumOver;
    if totals == [] {
      SumZero(Reporters(totals, period), f);
    } else {
      var last := |totals| - 1;
      var rest, total := totals[..last], totals[last];
      assert totals == rest + [total] && total in totals;
      ComparedOnce(rest, period, f);
      if total.period == period && total.provider !in Reporters(rest, period) {
        SumRemove(Reporters(totals, period), total.provider, f);
        assert Reporters(totals, period) - {total.provider} == Reporters(rest, period);
        NewReporter(totals, period, f);
      } else {
        assert Reporters(totals, period) == Reporters(rest, period);
        OldReporter(totals, period, f);
      }
    }
  }

  lemma NewReporter(totals: seq<CostTotal>, period: Window, f: Id -> real)
    requires totals != [] && totals[|totals| - 1].provider !in Reporters(totals[..|totals| - 1], period)
    ensures RepeatsAreFree(totals, period, f) <==> RepeatsAreFree(totals[..|totals| - 1], period, f)
  {
    var last := |totals| - 1;
    var rest := totals[..last];
    forall i | 0 <= i < last && totals[i].period == period ensures totals[i].provider != totals[last].provider {
      assert rest[i] in rest;
    }
    if RepeatsAreFree(totals, period, f) {
      forall i, j | 0 <= i < j < last && Repeats(rest[i], rest[j], period)
        ensures f(rest[j].provider) == 0.0 { assert totals[i] == rest[i] && totals[j] == rest[j]; }
    } else {
      var i, j :| 0 <= i < j < |totals| && Repeats(totals[i], totals[j], period) && f(totals[j].provider) != 0.0;
      assert rest[i] == totals[i] && rest[j] == totals[j];
    }
  }

  lemma OldReporter(totals: seq<CostTotal>, period: Window, f: Id -> real)
    requires totals != []
    requires totals[|totals| - 1].period != period
      || totals[|totals| - 1].provider in Reporters(totals[..|totals| - 1], period)
    ensures RepeatsAreFree(totals, period, f)
       <==> RepeatsAreFree(totals[..|totals| - 1], period, f)
            && (totals[|totals| - 1].period == period ==> f(totals[|totals| - 1].provider) == 0.0)
  {
    var last := |totals| - 1;
    var rest, total := totals[..last], totals[last];
    if total.period == period {
      var t :| t in rest && t.period == period && t.provider == total.provider;
      var i :| 0 <= i < last && rest[i] == t;
      assert totals[i].provider == totals[last].provider;
    }
    if RepeatsAreFree(totals, period, f) {
      forall i, j | 0 <= i < j < last && Repeats(rest[i], rest[j], period)
        ensures f(rest[j].provider) == 0.0 { assert totals[i] == rest[i] && totals[j] == rest[j]; }
    } else {
      var i, j :| 0 <= i < j < |totals| && Repeats(totals[i], totals[j], period) && f(totals[j].provider) != 0.0;
      if j < last { assert rest[i] == totals[i] && rest[j] == totals[j]; }
    }
  }

  lemma {:induction false} EntriesPriced(records: seq<Record>, q: Query, p: int)
    requires PricesNonNegative(records)
    ensures PricesNonNegative(Entries(records, q, p))
  {
    hide Matches, Assigned;
    if records != [] {
      assert records == records[..|records| - 1] + [records[|records| - 1]];
      EntriesPriced(records[..|records| - 1], q, p);
    }
  }

  /** With prices that are not negative, that is: if and only if no provider with an
      estimate has two totals for the period. */
  lemma ReconciledPeriodRepeats(
    records: seq<Record>, totals: seq<CostTotal>, from: int, to: int, result: seq<Rollup>, interval: Interval,
    period: Window)
    requires interval in {Hour, Day} && AllBuilt(records) && PricesNonNegative(records)
    requires from < to && IsBoundary(from, interval) && IsBoundary(to, interval)
    requires Reporters(totals, period) != {}
    requires period in CustomerPeriods(InitialRollups(records, totals, from, to), interval)
    requires RunBooked(InitialRollups(records, totals, from, to), result, Adjustments(records, totals))
    ensures var entries := Entries(records, PlainQuery(from, to, interval, Some(ByCustomer)), period.start);
            var f := EstimateByValue(entries, ByProvider, period);
            var rest := SumOver(AllProviders(entries) - Reporters(totals, period), f);
            && (AttributedIn(result, interval, period.start) == Reported(totals, period) + rest
                <==> RepeatsAreFree(totals, period, f))
  {
    hide SumOver, EstimateOf, WithValue, Entries, AttributedIn, Reported, Adjustments, InitialRollups, Compared;
    hide RepeatsAreFree, RunBooked, CustomerPeriods, AllBuilt;
    var q := PlainQuery(from, to, interval, Some(ByCustomer));
    var entries := Entries(records, q, period.start);
    var f := EstimateByValue(entries, ByProvider, period);
    ReconciledPeriodIff(records, totals, from, to, result, interval, period);
    EntriesPriced(records, q, period.start);
    forall p ensures 0.0 <= f(p) {
      var own := WithValue(entries, ByProvider, p);
      EstimateNonNegative(own, own, period, None);
    }
    ComparedOnce(totals, period, f);
  }

  /** Two totals for one provider: one attempt estimated at one dollar, totals of two and
      three. The attributed costs are four dollars, the reported totals five. */
  lemma RepeatedTotal(result: seq<Rollup>)
    requires RunBooked(
               InitialRollups([GibAttempt("c", "p", Some(1.0))], TwoTotals(), 0, HOUR_MS), result,
               Adjustments([GibAttempt("c", "p", Some(1.0))], TwoTotals()))
    ensures AttributedIn(result, Hour, 0) == 4.0 && Reported(TwoTotals(), Window(0, HOUR_MS)) == 5.0
  {
    hide InitialRollups, Adjustments, RunBooked, AttributedIn, Reported, Compared, Entries, Estimate, EstimateByValue;
    hide GibAttempt, TwoTotals, CustomerPeriods, Reporters;
    var records, totals, period := [GibAttempt("c", "p", Some(1.0))], TwoTotals(), Window(0, HOUR_MS);
    var q := PlainQuery(0, HOUR_MS, Hour, Some(ByCustomer));
    OneEntry(q);
    TwoCompared(period, EstimateByValue(records, ByProvider, period));
    assert period == PeriodAt(0, Hour);
    PeriodOwned(records, totals, 0, HOUR_MS, Hour, 0);
    AttributedIs(records, totals, 0, HOUR_MS, result, Hour, period);
  }

  /** A period whose entries have an estimate has a customer rollup. */
  lemma PeriodOwned(records: seq<Record>, totals: seq<CostTotal>, from: int, to: int, interval: Interval, start: int)
    requires interval in {Hour, Day} && AllBuilt(records)
    requires IsBoundary(start, interval) && from <= start < to
    requires Estimate(Entries(records, PlainQuery(from, to, interval, Some(ByCustomer)), start),
      PeriodAt(start, interval), None) != 0.0
    ensures PeriodAt(start, interval) in CustomerPeriods(InitialRollups(records, totals, from, to), interval)
  {
    hide EstimatedIn, InitialRollups, Entries, Estimate, PeriodStart, NextPeriod;
    InitialEstimates(records, totals, from, to, interval, start);
    OwnedPeriod(InitialRollups(records, totals, from, to), interval, start);
    var r :| r in InitialRollups(records, totals, from, to) && Owns(r, interval, start);
    InitialWellTimed(records, totals, from, to);
    assert WellTimed(r);
  }

  function TwoTotals(): seq<CostTotal> {
    [CostTotal("p", Window(0, HOUR_MS), 2.0, "v"), CostTotal("p", Window(0, HOUR_MS), 3.0, "w")]
  }

  lemma OneEntry(q: Query)
    requires q == PlainQuery(0, HOUR_MS, Hour, Some(ByCustomer))
    ensures var records, period := [GibAttempt("c", "p", Some(1.0))], Window(0, HOUR_MS);
            && Entries(records, q, 0) == records && AllBuilt(records)
            && Estimate(records, period, None) == 1.0
            && EstimateByValue(records, ByProvider, period)("p") == 1.0
  {
    var r, period := GibAttempt("c", "p", Some(1.0)), Window(0, HOUR_MS);
    assert [r][..0] == [] && [] + [r] == [r];
    EstimateAppend([], r, period);
    NothingCharged(r, period);
    assert WithValue([r], ByProvider, "p") == [r];
  }

  lemma TwoCompared(period: Window, f: Id -> real)
    requires period == Window(0, HOUR_MS) && f("p") == 1.0
    ensures Reported(TwoTotals(), period) == 5.0 && Compared(TwoTotals(), period, f) == 2.0
    ensures Reporters(TwoTotals(), period) != {}
  {
    var totals := TwoTotals();
    assert totals[..1] == [totals[0]] && totals[..1][..0] == [] && totals[0] in totals;
    assert "p" in Reporters(totals, period);
  }

  /** An estimate that is not zero belongs to some rollup. */
  lemma OwnedPeriod(rollups: seq<Rollup>, interval: Interval, start: int)
    requires EstimatedIn(rollups, interval, start) != 0.0
    ensures exists r :: r in rollups && Owns(r, interval, start)
  {
    if !exists r :: r in rollups && Owns(r, interval, start) { NoneOwned(rollups, interval, start); }
  }

  lemma {:induction false} ReportersAdjust(records: seq<Record>, totals: seq<CostTotal>, period: Window)
    ensures HasAdjustment(Adjustments(records, totals), period) <==> Reporters(totals, period) != {}
  {
    hide ComparedEstimate;
    if totals == [] {
    } else {
      var last := |totals| - 1;
      var rest, total := totals[..last], totals[last];
      assert totals == rest + [total];
      ReportersAdjust(records, rest, period);
      var before := Adjustments(records, rest);
      var adjustment := AdjustmentFor(records, total);
      assert forall a :: a in before + [adjustment] <==> a in before || a == adjustment;
      if total.period == period {
        assert total.provider in Reporters(totals, period);
        assert AdjustmentFor(records, total).period == period;
      } else {
        assert Reporters(totals, period) == Reporters(rest, period);
      }
    }
  }

  lemma {:induction false} RollupsInRange(records: seq<Record>, q: Query, totals: seq<CostTotal>, p: int)
    requires IsBoundary(p, q.interval)
    ensures forall r :: r in SummaryFrom(records, q, totals, p) ==> p <= r.period.start < q.to
    decreases q.to - p
  {
    hide PeriodStart, NextPeriod, Entries, PeriodRollups;
    if p < q.to {
      BoundariesClosed(p, q.interval);
      NextIsNearest(p, p, q.interval);
      RollupsInRange(records, q, totals, NextPeriod(p, q.interval));
      PeriodWellTimed(Entries(records, q, p), q, totals, p);
    }
  }

  lemma PeriodsInRange(
    records: seq<Record>, totals: seq<CostTotal>, from: int, to: int, interval: Interval, period: Window)
    requires interval in {Hour, Day} && IsBoundary(from, interval)
    requires period in CustomerPeriods(InitialRollups(records, totals, from, to), interval)
    ensures IsBoundary(period.start, interval) && period == PeriodAt(period.start, interval)
      && from <= period.start < to
  {
    hide PeriodStart, NextPeriod, SummaryFrom;
    var r :| r in InitialRollups(records, totals, from, to) && IsCustomerRollup(r, interval) && r.period == period;
    InitialWellTimed(records, totals, from, to);
    assert WellTimed(r);
    SummaryShape(records, PlainQuery(from, to, Hour, None), totals);
    SummaryShape(records, PlainQuery(from, to, Day, None), totals);
    SummaryShape(records, PlainQuery(from, to, Hour, Some(ByCustomer)), totals);
    SummaryShape(records, PlainQuery(from, to, Day, Some(ByCustomer)), totals);
    assert r in Summary(records, PlainQuery(from, to, interval, Some(ByCustomer)), totals);
    RollupsInRange(records, PlainQuery(from, to, interval, Some(ByCustomer)), totals, from);
  }
}
