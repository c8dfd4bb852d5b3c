/** estimatedCost: the maps it fills against a sum of one charge per record, and
    the conservation of that sum under every way of grouping. */
module Estimates {
  import opened Options
  import opened Windows
  import opened UsageRecords
  import opened Sums

  const GIB := 1073741824.0
  /** One twelfth of 365.25 days, in milliseconds. */
  const SLOT_MONTH_MS := 2629800000.0

  // ----- One charge per record -----

  predicate CustomerIs(r: Record, customer: Option<Id>) {
    customer.None? || r.customerId == customer.value
  }

  /** Traffic priced per GiB, charged in the period the attempt completed in. */
  function TrafficCharge(r: Record, period: Window, customer: Option<Id>): real {
    if r.pricingModel == Some(PerGib) && r.priceUsd.Some? && Within(r.completedAt, period.start, period.end)
      && CustomerIs(r, customer)
    then Times((r.bytesSent + r.bytesReceived) as real / GIB, r.priceUsd.value)
    else 0.0
  }

  /** The price of a slot for the part of the period it was provisioned. */
  function SlotCharge(r: Record, period: Window): real {
    if r.pricingModel == Some(PerDeviceMonth) && r.priceUsd.Some?
    then Times(Length(CapacityWindow(r, period)) as real / SLOT_MONTH_MS, r.priceUsd.value)
    else 0.0
  }

  predicate OnSlot(r: Record, slot: Id) { r.proxySlotId == Some(slot) }

  /** Connection time on a slot, of one customer or of all. */
  function SlotTime(records: seq<Record>, slot: Id, customer: Option<Id>, period: Window): int {
    if records == [] then 0
    else
      var last := |records| - 1;
      var r := records[last];
      SlotTime(records[..last], slot, customer, period)
      + (if OnSlot(r, slot) && CustomerIs(r, customer) then Length(ConnectionWindow(r, period)) else 0)
  }

  /** The part of a slot's cost a customer bears: by connection time, and all of an
      unused slot for Unallocated. */
  function Share(all: seq<Record>, slot: Id, customer: Option<Id>, period: Window): real {
    if customer.None? then 1.0
    else
      var total := SlotTime(all, slot, None, period);
      if total == 0 then if customer.value == UNALLOCATED then 1.0 else 0.0
      else SlotTime(all, slot, customer, period) as real / total as real
  }

  function SlotPart(r: Record, all: seq<Record>, period: Window, customer: Option<Id>): real {
    if r.proxySlotId.Some? then Times(SlotCharge(r, period), Share(all, r.proxySlotId.value, customer, period)) else 0.0
  }

  function EstimateOf(records: seq<Record>, all: seq<Record>, period: Window, customer: Option<Id>): real {
    if records == [] then 0.0
    else
      var last := |records| - 1;
      EstimateOf(records[..last], all, period, customer)
      + TrafficCharge(records[last], period, customer) + SlotPart(records[last], all, period, customer)
  }

  function Estimate(records: seq<Record>, period: Window, customer: Option<Id>): real {
    EstimateOf(records, records, period, customer)
  }

  // ----- Estimates are not negative -----

  ghost predicate PricesNonNegative(records: seq<Record>) {
    forall r :: r in records && r.priceUsd.Some? ==> 0.0 <= r.priceUsd.value
  }

  lemma ProductNonNegative(a: real, b: real)
    requires 0.0 <= a && 0.0 <= b
    ensures 0.0 <= Times(a, b)
  {
  }

  lemma QuotientNonNegative(a: real, b: real)
    requires 0.0 <= a && 0.0 < b
    ensures 0.0 <= a / b
  {
  }

  lemma ShareNonNegative(all: seq<Record>, slot: Id, customer: Option<Id>, period: Window)
    ensures 0.0 <= Share(all, slot, customer, period)
  {
    hide SlotTime;
    SlotTimeNonNegative(all, slot, customer, period);
    SlotTimeNonNegative(all, slot, None, period);
    var total := SlotTime(all, slot, None, period);
    if total > 0 { QuotientNonNegative(SlotTime(all, slot, customer, period) as real, total as real); }
  }

  lemma ChargeNonNegative(r: Record, all: seq<Record>, period: Window, customer: Option<Id>)
    requires r.priceUsd.Some? ==> 0.0 <= r.priceUsd.value
    ensures 0.0 <= TrafficCharge(r, period, customer) && 0.0 <= SlotPart(r, all, period, customer)
  {
    hide Times, Share;
    if r.priceUsd.Some? {
      ProductNonNegative((r.bytesSent + r.bytesReceived) as real / GIB, r.priceUsd.value);
      ProductNonNegative(Length(CapacityWindow(r, period)) as real / SLOT_MONTH_MS, r.priceUsd.value);
    }
    if r.proxySlotId.Some? {
      ShareNonNegative(all, r.proxySlotId.value, customer, period);
      ProductNonNegative(SlotCharge(r, period), Share(all, r.proxySlotId.value, customer, period));
    }
  }

  lemma {:induction false} EstimateNonNegative(
    records: seq<Record>, all: seq<Record>, period: Window, customer: Option<Id>)
    requires PricesNonNegative(records)
    ensures 0.0 <= EstimateOf(records, all, period, customer)
  {
    hide TrafficCharge, SlotPart;
    if records != [] {
      var last := |records| - 1;
      assert records[last] in records;
      EstimateNonNegative(records[..last], all, period, customer);
      ChargeNonNegative(records[last], all, period, customer);
    }
  }

  // ----- Splitting one slot among customers -----

  lemma {:induction false} SlotTimeNonNegative(records: seq<Record>, slot: Id, customer: Option<Id>, period: Window)
    ensures 0 <= SlotTime(records, slot, customer, period)
  {
    if records != [] { SlotTimeNonNegative(records[..|records| - 1], slot, customer, period); }
  }

  ghost function TimeByCustomer(records: seq<Record>, slot: Id, period: Window): Id -> real {
    c => SlotTime(records, slot, Some(c), period) as real
  }

  /** Customers that used the slot during the period all belong to `customers`. */
  ghost predicate UsersAmong(records: seq<Record>, slot: Id, period: Window, customers: set<Id>) {
    forall r :: r in records && OnSlot(r, slot) && ConnectionWindow(r, period).Some? ==> r.customerId in customers
  }

  lemma {:induction false} SlotTimeSplits(records: seq<Record>, slot: Id, period: Window, customers: set<Id>)
    requires UsersAmong(records, slot, period, customers)
    ensures SumOver(customers, TimeByCustomer(records, slot, period)) == SlotTime(records, slot, None, period) as real
  {
    var total := TimeByCustomer(records, slot, period);
    if records == [] {
      SumZero(customers, total);
    } else {
      var rest, r := records[..|records| - 1], records[|records| - 1];
      var before := TimeByCustomer(rest, slot, period);
      var length := if OnSlot(r, slot) then Length(ConnectionWindow(r, period)) as real else 0.0;
      var own := (c: Id) => if c == r.customerId then length else 0.0;
      SlotTimeSplits(rest, slot, period, customers);
      SumAdd(customers, before, own, total);
      if length == 0.0 { SumZero(customers, own); } else { SumPoint(customers, r.customerId, own); }
    }
  }

  ghost function ShareByCustomer(all: seq<Record>, slot: Id, period: Window): Id -> real {
    c => Share(all, slot, Some(c), period)
  }

  lemma QuotientAsProduct(a: real, b: real)
    requires b != 0.0
    ensures a / b == Times(1.0 / b, a)
    ensures Times(1.0 / b, b) == 1.0
  {
  }

  /** The shares of one slot add up to the whole slot. */
  lemma SharesAddUp(all: seq<Record>, slot: Id, period: Window, customers: set<Id>)
    requires UsersAmong(all, slot, period, customers)
    requires UNALLOCATED in customers
    ensures SumOver(customers, ShareByCustomer(all, slot, period)) == 1.0
  {
    var share := ShareByCustomer(all, slot, period);
    var total := SlotTime(all, slot, None, period);
    if total == 0 {
      SumPoint(customers, UNALLOCATED, share);
    } else {
      hide Times;
      var time := TimeByCustomer(all, slot, period);
      SlotTimeSplits(all, slot, period, customers);
      forall c | c in customers ensures share(c) == Times(1.0 / total as real, time(c)) {
        QuotientAsProduct(time(c), total as real);
      }
      QuotientAsProduct(1.0, total as real);
      SumScale(customers, 1.0 / total as real, time, share);
    }
  }

  // ----- Conservation over customers -----

  ghost function EstimateByCustomer(records: seq<Record>, all: seq<Record>, period: Window): Id -> real {
    c => EstimateOf(records, all, period, Some(c))
  }

  ghost predicate CustomersOf(records: seq<Record>, customers: set<Id>) {
    && (forall r :: r in records && r.kind == Attempt ==> r.customerId in customers)
    && (forall r :: r in records && r.kind == Capacity ==> UNALLOCATED in customers && AsBuilt(r))
  }

  lemma TrafficSplits(r: Record, period: Window, customers: set<Id>, traffic: Id -> real)
    requires CustomersOf([r], customers)
    requires forall c :: traffic(c) == TrafficCharge(r, period, Some(c))
    ensures SumOver(customers, traffic) == TrafficCharge(r, period, None)
  {
    assert r in [r];
    if r.kind == Attempt { SumPoint(customers, r.customerId, traffic); } else { SumZero(customers, traffic); }
  }

  lemma SlotSplits(r: Record, all: seq<Record>, period: Window, customers: set<Id>, part: Id -> real)
    requires CustomersOf(all, customers) && CustomersOf([r], customers)
    requires forall c :: part(c) == SlotPart(r, all, period, Some(c))
    ensures SumOver(customers, part) == SlotPart(r, all, period, None)
  {
    assert r in [r];
    var charge := SlotCharge(r, period);
    if r.kind == Capacity {
      var slot := r.proxySlotId.value;
      SharesAddUp(all, slot, period, customers);
      SumScale(customers, charge, ShareByCustomer(all, slot, period), part);
    } else {
      NothingCharged(r, period);
      SumZero(customers, part);
    }
  }

  lemma NothingCharged(r: Record, period: Window)
    requires r.kind == Attempt
    ensures SlotCharge(r, period) == 0.0
    ensures forall x :: Times(SlotCharge(r, period), x) == 0.0
  {
    assert Length(CapacityWindow(r, period)) == 0;
  }

  lemma {:induction false} CustomerEstimatesOf(
    records: seq<Record>, all: seq<Record>, period: Window, customers: set<Id>)
    requires CustomersOf(all, customers) && CustomersOf(records, customers)
    ensures SumOver(customers, EstimateByCustomer(records, all, period)) == EstimateOf(records, all, period, None)
  {
    hide TrafficCharge, SlotPart;
    var total := EstimateByCustomer(records, all, period);
    if records == [] {
      SumZero(customers, total);
    } else {
      var rest, r := records[..|records| - 1], records[|records| - 1];
      var before := EstimateByCustomer(rest, all, period);
      var traffic := (c: Id) => TrafficCharge(r, period, Some(c));
      var part := (c: Id) => SlotPart(r, all, period, Some(c));
      var own := (c: Id) => traffic(c) + part(c);
      CustomerEstimatesOf(rest, all, period, customers);
      TrafficSplits(r, period, customers, traffic);
      SlotSplits(r, all, period, customers, part);
      SumAdd(customers, traffic, part, own);
      SumAdd(customers, before, own, total);
    }
  }

  /** The estimates of a period's customers add up to the ungrouped estimate: slot
      cost split by connection time, unused slots on Unallocated. */
  lemma CustomerEstimatesAddUp(records: seq<Record>, period: Window, customers: set<Id>)
    requires CustomersOf(records, customers)
    ensures SumOver(customers, EstimateByCustomer(records, records, period)) == Estimate(records, period, None)
  {
    CustomerEstimatesOf(records, records, period, customers);
  }

  // ----- Conservation over every other grouping -----

  function WithValue(records: seq<Record>, groupBy: GroupBy, value: Id): (s: seq<Record>)
    ensures forall r :: r in s <==> r in records && GroupValue(r, groupBy) == value
  {
    if records == [] then []
    else
      var last := |records| - 1;
      assert records == records[..last] + [records[last]];
      WithValue(records[..last], groupBy, value)
        + (if GroupValue(records[last], groupBy) == value then [records[last]] else [])
  }

  /** With no customer, what a record adds does not depend on the others. */
  function PlainCharge(r: Record, period: Window): real {
    TrafficCharge(r, period, None) + SlotCharge(r, period)
  }

  lemma PlainChargeIs(r: Record, all: seq<Record>, period: Window)
    ensures TrafficCharge(r, period, None) + SlotPart(r, all, period, None) == PlainCharge(r, period)
  {
    if r.proxySlotId.None? {
      assert Length(CapacityWindow(r, period)) == 0;
    }
  }

  lemma {:induction false} EstimateIgnoresOthers(records: seq<Record>, a: seq<Record>, b: seq<Record>, period: Window)
    ensures EstimateOf(records, a, period, None) == EstimateOf(records, b, period, None)
  {
    if records != [] {
      EstimateIgnoresOthers(records[..|records| - 1], a, b, period);
      PlainChargeIs(records[|records| - 1], a, period);
      PlainChargeIs(records[|records| - 1], b, period);
    }
  }

  /** One more record adds its own charge to the ungrouped estimate. */
  lemma EstimateAppend(records: seq<Record>, r: Record, period: Window)
    ensures Estimate(records + [r], period, None) == Estimate(records, period, None) + PlainCharge(r, period)
  {
    assert (records + [r])[..|records|] == records;
    PlainChargeIs(r, records + [r], period);
    EstimateIgnoresOthers(records, records + [r], records, period);
  }

  ghost function EstimateByValue(records: seq<Record>, groupBy: GroupBy, period: Window): Id -> real {
    v => Estimate(WithValue(records, groupBy, v), period, None)
  }

  ghost predicate ValuesOf(records: seq<Record>, groupBy: GroupBy, values: set<Id>) {
    forall r :: r in records ==> GroupValue(r, groupBy) in values
  }

  lemma GroupStep(rest: seq<Record>, r: Record, groupBy: GroupBy, period: Window, value: Id)
    ensures Estimate(WithValue(rest + [r], groupBy, value), period, None)
         == Estimate(WithValue(rest, groupBy, value), period, None)
            + (if value == GroupValue(r, groupBy) then PlainCharge(r, period) else 0.0)
  {
    hide GroupValue, PlainCharge, Estimate;
    assert (rest + [r])[..|rest|] == rest;
    EstimateAppend(WithValue(rest, groupBy, value), r, period);
    assert WithValue(rest, groupBy, value) + [] == WithValue(rest, groupBy, value);
  }

  /** Under every grouping by an attribute of the records, the estimates of the
      groups add up to the ungrouped estimate. */
  lemma {:induction false} GroupEstimatesAddUp(records: seq<Record>, groupBy: GroupBy, period: Window, values: set<Id>)
    requires ValuesOf(records, groupBy, values)
    ensures SumOver(values, EstimateByValue(records, groupBy, period)) == Estimate(records, period, None)
  {
    if records == [] {
      NoEstimates(groupBy, period);
      SumZero(values, EstimateByValue(records, groupBy, period));
    } else {
      hide PlainCharge, GroupValue, Estimate, WithValue, SumOver;
      var rest, r := records[..|records| - 1], records[|records| - 1];
      assert records == rest + [r];
      GroupEstimatesAddUp(rest, groupBy, period, values);
      EstimateAppend(rest, r, period);
      GroupEstimatesStep(rest, r, groupBy, period, values);
    }
  }

  lemma NoEstimates(groupBy: GroupBy, period: Window)
    ensures Estimate([], period, None) == 0.0 && forall v :: EstimateByValue([], groupBy, period)(v) == 0.0
  {
  }

  lemma GroupEstimatesStep(rest: seq<Record>, r: Record, groupBy: GroupBy, period: Window, values: set<Id>)
    requires GroupValue(r, groupBy) in values
    ensures SumOver(values, EstimateByValue(rest + [r], groupBy, period))
         == SumOver(values, EstimateByValue(rest, groupBy, period)) + PlainCharge(r, period)
  {
    hide PlainCharge, GroupValue, Estimate, WithValue, SumOver;
    var before, total := EstimateByValue(rest, groupBy, period), EstimateByValue(rest + [r], groupBy, period);
    var own := (v: Id) => if v == GroupValue(r, groupBy) then PlainCharge(r, period) else 0.0;
    forall v | v in values ensures total(v) == before(v) + own(v) { GroupStep(rest, r, groupBy, period, v); }
    SumAdd(values, before, own, total);
    SumPoint(values, GroupValue(r, groupBy), own);
  }
}
