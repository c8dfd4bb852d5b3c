/** UsageAccountingWorker.run: reported provider totals against the estimates, and the
    variance booked on the Unallocated customer of each reconciled period. */
module Reconciliation {
  import opened Options
  import opened Windows
  import opened Periods
  import opened UsageRecords
  import opened Estimates
  import opened Summaries

  datatype Adjustment = Adjustment(provider: Id, period: Window, estimatedTotalUsd: real, reportedTotalUsd: real,
    adjustmentUsd: real)

  function IntervalOf(period: Window): Interval { if period.end - period.start <= HOUR_MS then Hour else Day }

  /** The query whose first rollup is the estimate a total is compared with. */
  function TotalQuery(total: CostTotal): Query {
    PlainQuery(total.period.start, total.period.end, IntervalOf(total.period), None).(provider := Some(total.provider))
  }

  ghost function ComparedEstimate(records: seq<Record>, total: CostTotal): real {
    var rollups := Summary(records, TotalQuery(total), []);
    if rollups == [] then 0.0 else rollups[0].estimatedCostUsd
  }

  ghost function AdjustmentFor(records: seq<Record>, total: CostTotal): Adjustment {
    var estimate := ComparedEstimate(records, total);
    Adjustment(total.provider, total.period, estimate, total.amountUsd, total.amountUsd - estimate)
  }

  ghost function Adjustments(records: seq<Record>, totals: seq<CostTotal>): seq<Adjustment> {
    if totals == [] then []
    else Adjustments(records, totals[..|totals| - 1]) + [AdjustmentFor(records, totals[|totals| - 1])]
  }

  function Variance(adjustments: seq<Adjustment>, period: Window): real {
    if adjustments == [] then 0.0
    else
      var last := |adjustments| - 1;
      Variance(adjustments[..last], period)
        + (if adjustments[last].period == period then adjustments[last].adjustmentUsd else 0.0)
  }

  predicate HasAdjustment(adjustments: seq<Adjustment>, period: Window) {
    exists a :: a in adjustments && a.period == period
  }

  // ----- Customer rollups of one period -----

  predicate IsCustomerRollup(r: Rollup, interval: Interval) {
    r.interval == interval && r.group.Some? && r.group.value.0 == ByCustomer
  }

  predicate Owns(r: Rollup, interval: Interval, start: int) {
    IsCustomerRollup(r, interval) && r.period.start == start
  }

  function AttributedIn(rollups: seq<Rollup>, interval: Interval, start: int): real {
    if rollups == [] then 0.0
    else
      var last := |rollups| - 1;
      AttributedIn(rollups[..last], interval, start)
        + (if Owns(rollups[last], interval, start) then rollups[last].attributedCostUsd else 0.0)
  }

  function EstimatedIn(rollups: seq<Rollup>, interval: Interval, start: int): real {
    if rollups == [] then 0.0
    else
      var last := |rollups| - 1;
      EstimatedIn(rollups[..last], interval, start)
        + (if Owns(rollups[last], interval, start) then rollups[last].estimatedCostUsd else 0.0)
  }

  lemma {:induction false} EstimatedInConcat(a: seq<Rollup>, b: seq<Rollup>, interval: Interval, start: int)
    ensures EstimatedIn(a + b, interval, start) == EstimatedIn(a, interval, start) + EstimatedIn(b, interval, start)
  {
    if b == [] {
      assert a + b == a;
    } else {
      assert (a + b)[..|a + b| - 1] == a + b[..|b| - 1];
      EstimatedInConcat(a, b[..|b| - 1], interval, start);
    }
  }

  lemma {:induction false} AttributedUpdate(rollups: seq<Rollup>, i: nat, x: Rollup, interval: Interval, start: int)
    requires i < |rollups|
    requires x.interval == rollups[i].interval && x.group == rollups[i].group && x.period == rollups[i].period
    ensures AttributedIn(rollups[i := x], interval, start)
         == AttributedIn(rollups, interval, start)
           + (if Owns(x, interval, start) then x.attributedCostUsd - rollups[i].attributedCostUsd else 0.0)
  {
    var last := |rollups| - 1;
    if i == last {
      assert rollups[i := x][..last] == rollups[..last];
    } else {
      assert rollups[i := x][..last] == rollups[..last][i := x];
      AttributedUpdate(rollups[..last], i, x, interval, start);
    }
  }

  // ----- Booking one period -----

  function ResetRollup(r: Rollup, interval: Interval, start: int): Rollup {
    if Owns(r, interval, start) then r.(attributedCostUsd := r.estimatedCostUsd, reconciled := true) else r
  }

  /** Every customer rollup of the period back to its estimate; the index of the first
      Unallocated one, if any. */
  method ResetCustomers(
    rollups: seq<Rollup>, interval: Interval, start: int) returns (result: seq<Rollup>, unallocated: Option<nat>)
    ensures |result| == |rollups|
    ensures forall i :: 0 <= i < |rollups| ==> result[i] == ResetRollup(rollups[i], interval, start)
    ensures unallocated.Some? ==> unallocated.value < |result| && Owns(result[unallocated.value], interval, start)
                                  && IsUnallocated(result[unallocated.value])
    ensures var none := if unallocated.Some? then unallocated.value else |result|;
            forall i :: 0 <= i < none && Owns(result[i], interval, start) ==> !IsUnallocated(result[i])
  {
    result, unallocated := rollups, None;
    for i := 0 to |rollups|
      invariant |result| == |rollups|
      invariant forall k :: 0 <= k < i ==> result[k] == ResetRollup(rollups[k], interval, start)
      invariant forall k :: i <= k < |rollups| ==> result[k] == rollups[k]
      invariant unallocated.Some? ==> unallocated.value < i && Owns(result[unallocated.value], interval, start)
                                      && IsUnallocated(result[unallocated.value])
      invariant var none := if unallocated.Some? then unallocated.value else i;
                forall k :: 0 <= k < none && Owns(result[k], interval, start) ==> !IsUnallocated(result[k])
    {
      if Owns(rollups[i], interval, start) {
        result := result[i := rollups[i].(attributedCostUsd := rollups[i].estimatedCostUsd, reconciled := true)];
        if unallocated.None? && IsUnallocated(rollups[i]) { unallocated := Some(i); }
      }
    }
  }

  lemma {:induction false} ResetTotals(
    rollups: seq<Rollup>, result: seq<Rollup>, interval: Interval, start: int, i: Interval, s: int)
    requires |result| == |rollups|
    requires forall k :: 0 <= k < |rollups| ==> result[k] == ResetRollup(rollups[k], interval, start)
    ensures AttributedIn(result, i, s) == if i == interval && s == start then EstimatedIn(rollups, i, s)
      else AttributedIn(rollups, i, s)
    ensures EstimatedIn(result, i, s) == EstimatedIn(rollups, i, s)
  {
    if rollups != [] { ResetTotals(rollups[..|rollups| - 1], result[..|result| - 1], interval, start, i, s); }
  }

  /** What booking a variance does to the totals of every period. */
  ghost predicate Booked(before: seq<Rollup>, after: seq<Rollup>, interval: Interval, start: int, variance: real) {
    && (forall i, s :: AttributedIn(after, i, s) ==
          if i == interval && s == start then EstimatedIn(before, i, s) + variance else AttributedIn(before, i, s))
    && (forall i, s :: EstimatedIn(after, i, s) == EstimatedIn(before, i, s))
  }

  predicate IsUnallocated(r: Rollup) { r.group == Some((ByCustomer, UNALLOCATED)) }

  /** What booking does to one rollup: in a reconciled period a customer is back at its
      estimate, only Unallocated may differ from it; nothing else changes. */
  predicate RollupBooked(before: Rollup, after: Rollup, reconciled: bool) {
    if reconciled then
      && after == before.(attributedCostUsd := after.attributedCostUsd, reconciled := true)
      && (!IsUnallocated(before) ==> after.attributedCostUsd == before.estimatedCostUsd)
    else after == before
  }

  /** An Unallocated rollup that no record was behind. */
  predicate Created(r: Rollup, interval: Interval, p: Window) {
    r.interval == interval && r.period == p && IsUnallocated(r) && r.estimatedCostUsd == 0.0
      && r.providerSpendUsd == 0.0 && r.reconciled
  }

  ghost predicate PeriodBooked(before: seq<Rollup>, after: seq<Rollup>, interval: Interval, p: Window) {
    && |before| <= |after| <= |before| + 1
    && (forall i :: 0 <= i < |before| ==> RollupBooked(before[i], after[i], Owns(before[i], interval, p.start)))
    && (|after| == |before| + 1 ==> Created(after[|before|], interval, p))
  }

  method BookVariance(
    rollups: seq<Rollup>, interval: Interval, period: Window, variance: real) returns (result: seq<Rollup>)
    ensures Booked(rollups, result, interval, period.start, variance)
    ensures PeriodBooked(rollups, result, interval, period)
    ensures exists i :: 0 <= i < |result| && Owns(result[i], interval, period.start) && IsUnallocated(result[i])
  {
    var reset, unallocated := ResetCustomers(rollups, interval, period.start);
    result := reset;
    forall i, s
      ensures AttributedIn(reset, i, s)
        == (if i == interval && s == period.start then EstimatedIn(rollups, i, s) else AttributedIn(rollups, i, s))
      ensures EstimatedIn(reset, i, s) == EstimatedIn(rollups, i, s)
    {
      ResetTotals(rollups, reset, interval, period.start, i, s);
    }
    if unallocated.None? {
      var created := Rollup(interval, period, Some((ByCustomer, UNALLOCATED)), 0.0, 0.0, 0.0, true);
      result := result + [created];
      unallocated := Some(|reset|);
      assert result[..|result| - 1] == reset;
    }
    var index := unallocated.value;
    ghost var before := result;
    result := result[index := result[index].(attributedCostUsd := result[index].attributedCostUsd + variance)];
    forall i, s ensures AttributedIn(result, i, s)
      == AttributedIn(before, i, s) + (if i == interval && s == period.start then variance else 0.0) {
      AttributedUpdate(before, index, result[index], i, s);
    }
    forall i, s ensures EstimatedIn(result, i, s) == EstimatedIn(before, i, s) {
      EstimatedUpdate(before, index, result[index], i, s);
    }
    assert Owns(result[index], interval, period.start);
  }

  lemma {:induction false} EstimatedUpdate(rollups: seq<Rollup>, i: nat, x: Rollup, interval: Interval, start: int)
    requires i < |rollups|
    requires x == rollups[i].(attributedCostUsd := x.attributedCostUsd)
    ensures EstimatedIn(rollups[i := x], interval, start) == EstimatedIn(rollups, interval, start)
  {
    var last := |rollups| - 1;
    if i == last {
      assert rollups[i := x][..last] == rollups[..last];
    } else {
      assert rollups[i := x][..last] == rollups[..last][i := x];
      EstimatedUpdate(rollups[..last], i, x, interval, start);
    }
  }

  // ----- Booking every period of one interval -----

  /** The rollups of an interval start on its boundaries and span one period. */
  predicate WellTimed(r: Rollup) {
    IsBoundary(r.period.start, r.interval) && r.period == PeriodAt(r.period.start, r.interval)
  }

  ghost predicate AllWellTimed(rollups: seq<Rollup>) { forall r :: r in rollups ==> WellTimed(r) }

  function CustomerPeriods(rollups: seq<Rollup>, interval: Interval): set<Window> {
    set r | r in rollups && IsCustomerRollup(r, interval) :: r.period
  }

  /** The totals of an interval after all its reconciled periods have been booked. */
  ghost predicate AllBooked(
    before: seq<Rollup>, after: seq<Rollup>, interval: Interval, done: set<Window>, adjustments: seq<Adjustment>) {
    && (forall i, s :: EstimatedIn(after, i, s) == EstimatedIn(before, i, s))
    && (forall i, s :: i != interval ==> AttributedIn(after, i, s) == AttributedIn(before, i, s))
    && (forall p :: p in done && HasAdjustment(adjustments, p) ==>
          AttributedIn(after, interval, p.start) == EstimatedIn(before, interval, p.start) + Variance(adjustments, p))
    && (forall p :: p in done && !HasAdjustment(adjustments, p) ==>
         AttributedIn(after, interval, p.start) == AttributedIn(before, interval, p.start))
  }

  /** Whether the booking of these periods touches the rollup. */
  predicate Reconciles(r: Rollup, interval: Interval, done: set<Window>, adjustments: seq<Adjustment>) {
    IsCustomerRollup(r, interval) && r.period in done && HasAdjustment(adjustments, r.period)
  }

  /** The rollups of an interval after its reconciled periods have been booked. */
  ghost predicate EachBooked(
    before: seq<Rollup>, after: seq<Rollup>, interval: Interval, done: set<Window>, adjustments: seq<Adjustment>) {
    && |before| <= |after|
    && (forall i :: 0 <= i < |before| ==>
         RollupBooked(before[i], after[i], Reconciles(before[i], interval, done, adjustments)))
    && (forall i :: |before| <= i < |after| ==>
         Created(after[i], interval, after[i].period) && Reconciles(after[i], interval, done, adjustments))
  }

  lemma EachStep(
    before: seq<Rollup>, now: seq<Rollup>, after: seq<Rollup>, interval: Interval, done: set<Window>, p: Window,
    adjustments: seq<Adjustment>)
    requires AllWellTimed(now) && p !in done && HasAdjustment(adjustments, p)
    requires IsBoundary(p.start, interval) && p == PeriodAt(p.start, interval)
    requires EachBooked(before, now, interval, done, adjustments) && PeriodBooked(now, after, interval, p)
    ensures EachBooked(before, after, interval, done + {p}, adjustments)
  {
    hide HasAdjustment, PeriodStart, NextPeriod;
    forall i | 0 <= i < |now|
      ensures Owns(now[i], interval, p.start) <==> IsCustomerRollup(now[i], interval) && now[i].period == p {
      assert now[i] in now && WellTimed(now[i]);
    }
    forall i | 0 <= i < |before|
      ensures RollupBooked(before[i], after[i], Reconciles(before[i], interval, done + {p}, adjustments)) {
      assert RollupBooked(now[i], after[i], Owns(now[i], interval, p.start));
    }
    forall i | |before| <= i < |after|
      ensures Created(after[i], interval, after[i].period) && Reconciles(after[i], interval, done + {p}, adjustments) {
      if i < |now| { assert RollupBooked(now[i], after[i], Owns(now[i], interval, p.start)); }
    }
  }

  lemma EachSkip(
    before: seq<Rollup>, now: seq<Rollup>, interval: Interval, done: set<Window>, p: Window,
    adjustments: seq<Adjustment>)
    requires !HasAdjustment(adjustments, p) && EachBooked(before, now, interval, done, adjustments)
    ensures EachBooked(before, now, interval, done + {p}, adjustments)
  {
    hide HasAdjustment;
  }

  lemma StartsIdentify(before: seq<Rollup>, interval: Interval, p: Window, p': Window)
    requires AllWellTimed(before)
    requires p in CustomerPeriods(before, interval) && p' in CustomerPeriods(before, interval)
    requires p.start == p'.start
    ensures p == p'
  {
  }

  lemma BookedStep(
    before: seq<Rollup>, now: seq<Rollup>, after: seq<Rollup>, interval: Interval, done: set<Window>, p: Window,
    adjustments: seq<Adjustment>)
    requires AllWellTimed(before) && done <= CustomerPeriods(before, interval) && p in CustomerPeriods(before, interval)
      && p !in done
    requires AllBooked(before, now, interval, done, adjustments)
    requires HasAdjustment(adjustments, p)
    requires Booked(now, after, interval, p.start, Variance(adjustments, p))
    ensures AllBooked(before, after, interval, done + {p}, adjustments)
  {
    hide AttributedIn, EstimatedIn, Variance, HasAdjustment, CustomerPeriods, PeriodStart, NextPeriod;
    forall d | d in done ensures d.start != p.start {
      if d.start == p.start { StartsIdentify(before, interval, d, p); }
    }
  }

  method BookInterval(
    rollups: seq<Rollup>, interval: Interval, adjustments: seq<Adjustment>) returns (result: seq<Rollup>)
    requires AllWellTimed(rollups)
    ensures AllWellTimed(result)
    ensures AllBooked(rollups, result, interval, CustomerPeriods(rollups, interval), adjustments)
    ensures EachBooked(rollups, result, interval, CustomerPeriods(rollups, interval), adjustments)
    ensures forall i :: i != interval ==> CustomerPeriods(result, i) == CustomerPeriods(rollups, i)
  {
    result := rollups;
    hide Variance, HasAdjustment, EstimatedIn, AttributedIn, PeriodBooked, AllWellTimed, Booked, EachBooked;
    var all := CustomerPeriods(rollups, interval);
    var rest := all;
    assert all - rest == {};
    assert AllBooked(rollups, result, interval, all - rest, adjustments);
    NoneBooked(rollups, interval, adjustments);
    while rest != {}
      invariant rest <= all
      invariant AllWellTimed(result)
      invariant AllBooked(rollups, result, interval, all - rest, adjustments)
      invariant EachBooked(rollups, result, interval, all - rest, adjustments)
      invariant forall i :: i != interval ==> CustomerPeriods(result, i) == CustomerPeriods(rollups, i)
      invariant forall p :: p in rest ==>
        AttributedIn(result, interval, p.start) == AttributedIn(rollups, interval, p.start)
      decreases rest
    {
      var p :| p in rest;
      assert all - (rest - {p}) == (all - rest) + {p};
      ghost var before := result;
      if HasAdjustment(adjustments, p) {
        result := BookVariance(result, interval, p, Variance(adjustments, p));
        BookedStep(rollups, before, result, interval, all - rest, p, adjustments);
        PeriodIsOwn(rollups, interval, p);
        EachStep(rollups, before, result, interval, all - rest, p, adjustments);
        StillWellTimed(rollups, before, result, interval, p);
        forall i | i != interval ensures CustomerPeriods(result, i) == CustomerPeriods(rollups, i) {
          SamePeriods(before, result, interval, p, i);
        }
        OthersKept(rollups, before, result, interval, p, Variance(adjustments, p), rest - {p});
      } else {
        EachSkip(rollups, result, interval, all - rest, p, adjustments);
      }
      rest := rest - {p};
    }
    assert all - rest == all;
  }

  lemma NoneBooked(rollups: seq<Rollup>, interval: Interval, adjustments: seq<Adjustment>)
    ensures EachBooked(rollups, rollups, interval, {}, adjustments)
  {
  }

  lemma PeriodIsOwn(rollups: seq<Rollup>, interval: Interval, p: Window)
    requires AllWellTimed(rollups) && p in CustomerPeriods(rollups, interval)
    ensures IsBoundary(p.start, interval) && p == PeriodAt(p.start, interval)
  {
    hide PeriodStart, NextPeriod;
    var known :| known in rollups && IsCustomerRollup(known, interval) && known.period == p;
    assert WellTimed(known);
  }

  /** Booking one period leaves what the other periods hold. */
  lemma OthersKept(
    rollups: seq<Rollup>, before: seq<Rollup>, after: seq<Rollup>, interval: Interval, p: Window, variance: real,
    others: set<Window>)
    requires AllWellTimed(rollups) && p in CustomerPeriods(rollups, interval)
    requires others <= CustomerPeriods(rollups, interval) && p !in others
    requires Booked(before, after, interval, p.start, variance)
    requires forall d :: d in others ==>
      AttributedIn(before, interval, d.start) == AttributedIn(rollups, interval, d.start)
    ensures forall d :: d in others ==>
      AttributedIn(after, interval, d.start) == AttributedIn(rollups, interval, d.start)
  {
    hide AttributedIn, EstimatedIn;
    forall d | d in others ensures AttributedIn(after, interval, d.start) == AttributedIn(rollups, interval, d.start) {
      if d.start == p.start { StartsIdentify(rollups, interval, d, p); }
    }
  }

  lemma StillWellTimed(rollups: seq<Rollup>, before: seq<Rollup>, after: seq<Rollup>, interval: Interval, p: Window)
    requires AllWellTimed(rollups) && p in CustomerPeriods(rollups, interval)
    requires AllWellTimed(before) && PeriodBooked(before, after, interval, p)
    ensures AllWellTimed(after)
  {
    hide PeriodStart, NextPeriod;
    var known :| known in rollups && IsCustomerRollup(known, interval) && known.period == p;
    assert WellTimed(known);
    forall k | 0 <= k < |after| ensures WellTimed(after[k]) {
      if k < |before| { assert before[k] in before; }
    }
  }

  lemma SamePeriods(before: seq<Rollup>, after: seq<Rollup>, interval: Interval, p: Window, i: Interval)
    requires PeriodBooked(before, after, interval, p) && i != interval
    ensures CustomerPeriods(after, i) == CustomerPeriods(before, i)
  {
    forall w | w in CustomerPeriods(after, i) ensures w in CustomerPeriods(before, i) {
      var r :| r in after && IsCustomerRollup(r, i) && r.period == w;
      var k :| 0 <= k < |after| && after[k] == r;
      assert before[k] in before && IsCustomerRollup(before[k], i);
    }
    forall w | w in CustomerPeriods(before, i) ensures w in CustomerPeriods(after, i) {
      var r :| r in before && IsCustomerRollup(r, i) && r.period == w;
      var k :| 0 <= k < |before| && before[k] == r;
      assert after[k] in after && IsCustomerRollup(after[k], i);
    }
  }

  // ----- The whole run -----

  /** The rollups before any variance is booked. */
  ghost function InitialRollups(records: seq<Record>, totals: seq<CostTotal>, from: int, to: int): seq<Rollup> {
    Summary(records, PlainQuery(from, to, Hour, None), totals)
    + Summary(records, PlainQuery(from, to, Day, None), totals)
    + Summary(records, PlainQuery(from, to, Hour, Some(ByCustomer)), totals)
    + Summary(records, PlainQuery(from, to, Day, Some(ByCustomer)), totals)
  }

  predicate PositiveTotals(totals: seq<CostTotal>) {
    forall t :: t in totals ==> t.period.start < t.period.end
  }

  /** Nothing where the summary of a total's period throws. */
  method CompareTotals(records: seq<Record>, totals: seq<CostTotal>) returns (result: Option<seq<Adjustment>>)
    ensures result == if PositiveTotals(totals) then Some(Adjustments(records, totals)) else None
  {
    hide Summary;
    var adjustments: seq<Adjustment> := [];
    for i := 0 to |totals|
      invariant PositiveTotals(totals[..i])
      invariant adjustments == Adjustments(records, totals[..i])
    {
      var total := totals[i];
      assert total in totals;
      assert totals[..i + 1][..i] == totals[..i];
      var summary := SummarizeUsage(records, TotalQuery(total), []);
      if summary.InvalidRange? { return None; }
      var estimate := if summary.rollups == [] then 0.0 else summary.rollups[0].estimatedCostUsd;
      adjustments := adjustments
        + [Adjustment(total.provider, total.period, estimate, total.amountUsd, total.amountUsd - estimate)];
    }
    assert totals[..|totals|] == totals;
    result := Some(adjustments);
  }

  method Summarize(
    records: seq<Record>, totals: seq<CostTotal>, from: int, to: int, interval: Interval, groupBy: Option<GroupBy>)
    returns (rollups: seq<Rollup>)
    requires from < to
    ensures rollups == Summary(records, PlainQuery(from, to, interval, groupBy), totals)
  {
    hide Summary;
    var summary := SummarizeUsage(records, PlainQuery(from, to, interval, groupBy), totals);
    rollups := summary.rollups;
  }

  /** Both intervals: a customer period with a reported total holds its estimates plus
      the variance, any other holds what it held. */
  ghost predicate RunBooked(initial: seq<Rollup>, result: seq<Rollup>, adjustments: seq<Adjustment>) {
    forall interval, p :: interval in {Hour, Day} && p in CustomerPeriods(initial, interval) ==>
      AttributedIn(result, interval, p.start) ==
        if HasAdjustment(adjustments, p) then EstimatedIn(initial, interval, p.start) + Variance(adjustments, p)
        else AttributedIn(initial, interval, p.start)
  }

  predicate ReconciledIn(r: Rollup, adjustments: seq<Adjustment>) {
    r.interval in {Hour, Day} && IsCustomerRollup(r, r.interval) && HasAdjustment(adjustments, r.period)
  }

  /** Rollup by rollup: the customers of a reconciled period are at their estimates, all
      but Unallocated, which is created where it is missing; nothing else changes. */
  ghost predicate RollupsBooked(initial: seq<Rollup>, result: seq<Rollup>, adjustments: seq<Adjustment>) {
    && |initial| <= |result|
    && (forall i :: 0 <= i < |initial| ==> RollupBooked(initial[i], result[i], ReconciledIn(initial[i], adjustments)))
    && (forall i :: |initial| <= i < |result| ==>
         Created(result[i], result[i].interval, result[i].period) && ReconciledIn(result[i], adjustments))
  }

  /** One run; nothing where the source throws on an empty range. */
  method Run(records: seq<Record>, totals: seq<CostTotal>, from: int, to: int) returns (result: Option<seq<Rollup>>)
    ensures result.Some? <==> from < to && PositiveTotals(totals)
    ensures result.Some? ==>
      RunBooked(InitialRollups(records, totals, from, to), result.value, Adjustments(records, totals))
    ensures result.Some? ==>
      RollupsBooked(InitialRollups(records, totals, from, to), result.value, Adjustments(records, totals))
  {
    hide Summary, Adjustments, EstimatedIn, AttributedIn, Variance, HasAdjustment, EachBooked, RollupsBooked, RunBooked,
      PositiveTotals;
    var compared := CompareTotals(records, totals);
    if compared.None? || from >= to { return None; }
    var adjustments := compared.value;
    var hours := Summarize(records, totals, from, to, Hour, None);
    var days := Summarize(records, totals, from, to, Day, None);
    var customerHours := Summarize(records, totals, from, to, Hour, Some(ByCustomer));
    var customerDays := Summarize(records, totals, from, to, Day, Some(ByCustomer));
    var rollups := hours + days + customerHours + customerDays;
    InitialWellTimed(records, totals, from, to);
    var bookedHours := BookInterval(rollups, Hour, adjustments);
    var bookedDays := BookInterval(bookedHours, Day, adjustments);
    result := Some(bookedDays);
    BothBooked(rollups, bookedHours, bookedDays, adjustments);
    BothEach(rollups, bookedHours, bookedDays, adjustments);
  }

  lemma BothEach(rollups: seq<Rollup>, hours: seq<Rollup>, days: seq<Rollup>, adjustments: seq<Adjustment>)
    requires EachBooked(rollups, hours, Hour, CustomerPeriods(rollups, Hour), adjustments)
    requires EachBooked(hours, days, Day, CustomerPeriods(hours, Day), adjustments)
    requires CustomerPeriods(hours, Day) == CustomerPeriods(rollups, Day)
    ensures RollupsBooked(rollups, days, adjustments)
  {
    hide HasAdjustment;
    forall i | 0 <= i < |rollups| ensures RollupBooked(rollups[i], days[i], ReconciledIn(rollups[i], adjustments)) {
      assert rollups[i] in rollups;
      assert RollupBooked(hours[i], days[i], Reconciles(hours[i], Day, CustomerPeriods(hours, Day), adjustments));
    }
    forall i | |rollups| <= i < |days|
      ensures Created(days[i], days[i].interval, days[i].period) && ReconciledIn(days[i], adjustments)
    {
      if i < |hours| { assert RollupBooked(hours[i], days[i],
        Reconciles(hours[i], Day, CustomerPeriods(hours, Day), adjustments)); }
    }
  }

  lemma BothBooked(rollups: seq<Rollup>, hours: seq<Rollup>, days: seq<Rollup>, adjustments: seq<Adjustment>)
    requires AllBooked(rollups, hours, Hour, CustomerPeriods(rollups, Hour), adjustments)
    requires AllBooked(hours, days, Day, CustomerPeriods(hours, Day), adjustments)
    requires CustomerPeriods(hours, Day) == CustomerPeriods(rollups, Day)
    ensures RunBooked(rollups, days, adjustments)
  {
    hide EstimatedIn, AttributedIn, Variance, HasAdjustment, CustomerPeriods;
  }

  lemma {:induction false} SummaryWellTimed(records: seq<Record>, q: Query, totals: seq<CostTotal>, p: int)
    requires IsBoundary(p, q.interval)
    ensures forall r :: r in SummaryFrom(records, q, totals, p) ==>
      WellTimed(r) && r.interval == q.interval && p <= r.period.start
    ensures forall r :: r in SummaryFrom(records, q, totals, p) ==> r.group.Some? == q.groupBy.Some?
    ensures forall r :: r in SummaryFrom(records, q, totals, p) && r.group.Some? ==> r.group.value.0 == q.groupBy.value
    decreases q.to - p
  {
    hide PeriodStart, NextPeriod, Estimate, Entries, GroupValues;
    if p < q.to {
      BoundariesClosed(p, q.interval);
      NextIsNearest(p, p, q.interval);
      SummaryWellTimed(records, q, totals, NextPeriod(p, q.interval));
      PeriodWellTimed(Entries(records, q, p), q, totals, p);
    }
  }

  lemma PeriodWellTimed(entries: seq<Record>, q: Query, totals: seq<CostTotal>, p: int)
    requires IsBoundary(p, q.interval)
    ensures forall r :: r in PeriodRollups(entries, q, totals, p) ==>
      && r.interval == q.interval && r.period == PeriodAt(p, q.interval)
      && r.group.Some? == q.groupBy.Some? && (r.group.Some? ==> r.group.value.0 == q.groupBy.value)
  {
    hide PeriodStart, NextPeriod, Estimate, GroupValues, EntriesOf, CostedEntries;
  }

  lemma SummaryShape(records: seq<Record>, q: Query, totals: seq<CostTotal>)
    ensures forall r :: r in Summary(records, q, totals) ==> WellTimed(r) && r.interval == q.interval
    ensures forall r :: r in Summary(records, q, totals) ==> r.group.Some? == q.groupBy.Some?
    ensures forall r :: r in Summary(records, q, totals) && r.group.Some? ==> r.group.value.0 == q.groupBy.value
  {
    hide PeriodStart, NextPeriod, SummaryFrom;
    Tiling(q.from, q.interval);
    SummaryWellTimed(records, q, totals, PeriodStart(q.from, q.interval));
  }

  lemma InitialWellTimed(records: seq<Record>, totals: seq<CostTotal>, from: int, to: int)
    ensures AllWellTimed(InitialRollups(records, totals, from, to))
  {
    hide Summary, WellTimed;
    SummaryShape(records, PlainQuery(from, to, Hour, None), totals);
    SummaryShape(records, PlainQuery(from, to, Day, None), totals);
    SummaryShape(records, PlainQuery(from, to, Hour, Some(ByCustomer)), totals);
    SummaryShape(records, PlainQuery(from, to, Day, Some(ByCustomer)), totals);
  }
}
