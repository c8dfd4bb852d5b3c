/** Who bears what, read off the records: traffic by GiB and each slot's cost by the
    connection time on it. */
module SlotShares {
  import opened Options
  import opened Windows
  import opened UsageRecords
  import opened Sums
  import opened Estimates
  import opened CostEstimation

  /** How long [from, to) lasts inside the period. */
  function OverlapMs(from: int, to: int, period: Window): int {
    Max(0, Min(to, period.end) - Max(from, period.start))
  }

  predicate IsOf(r: Record, customer: Option<Id>) { customer == None || customer == Some(r.customerId) }

  /** The milliseconds of connection on a slot inside the period. */
  ghost function UsedMs(records: seq<Record>, slot: Id, period: Window, customer: Option<Id>): int {
    if records == [] then 0
    else
      var r := records[|records| - 1];
      UsedMs(records[..|records| - 1], slot, period, customer)
      + if r.kind == Attempt && r.proxySlotId == Some(slot) && IsOf(r, customer)
          && r.connectionStartedAt.Some? && r.connectionEndedAt.Some?
        then OverlapMs(r.connectionStartedAt.value, r.connectionEndedAt.value, period) else 0
  }

  /** The milliseconds of connection on any slot. */
  ghost function UsedAnywhereMs(records: seq<Record>, period: Window, customer: Option<Id>): int {
    if records == [] then 0
    else
      var r := records[|records| - 1];
      UsedAnywhereMs(records[..|records| - 1], period, customer)
      + if r.kind == Attempt && r.proxySlotId.Some? && IsOf(r, customer)
          && r.connectionStartedAt.Some? && r.connectionEndedAt.Some?
        then OverlapMs(r.connectionStartedAt.value, r.connectionEndedAt.value, period) else 0
  }

  /** Bytes of the attempts that completed in the period, at the price of a GiB. */
  ghost function TrafficUsd(records: seq<Record>, period: Window, customer: Option<Id>): real {
    if records == [] then 0.0
    else
      var r := records[|records| - 1];
      TrafficUsd(records[..|records| - 1], period, customer)
      + if r.pricingModel == Some(PerGib) && r.priceUsd.Some? && IsOf(r, customer)
          && period.start <= r.completedAt < period.end
        then (r.bytesSent + r.bytesReceived) as real / 1073741824.0 * r.priceUsd.value else 0.0
  }

  /** The price of a slot for the part of the period it was provisioned, by twelfths of
      365.25 days. */
  ghost function SlotUsd(records: seq<Record>, slot: Id, period: Window): real {
    if records == [] then 0.0
    else
      var r := records[|records| - 1];
      SlotUsd(records[..|records| - 1], slot, period)
      + if r.kind == Capacity && r.proxySlotId == Some(slot) && r.pricingModel == Some(PerDeviceMonth)
        && r.priceUsd.Some?
        then OverlapMs(r.startedAt, r.completedAt, period) as real / 2629800000.0 * r.priceUsd.value else 0.0
  }

  // ----- The maps hold these -----

  lemma {:induction false} TimesAre(records: seq<Record>, slot: Id, period: Window, customer: Option<Id>)
    ensures SlotTime(records, slot, customer, period) == UsedMs(records, slot, period, customer)
  {
    if records != [] { TimesAre(records[..|records| - 1], slot, period, customer); }
  }

  lemma {:induction false} ConnectionsAre(records: seq<Record>, period: Window, customer: Option<Id>)
    ensures ConnectionMs(records, period, customer) == UsedAnywhereMs(records, period, customer)
  {
    if records != [] { ConnectionsAre(records[..|records| - 1], period, customer); }
  }

  lemma {:induction false} TrafficIs(records: seq<Record>, period: Window, customer: Option<Id>)
    ensures TrafficCost(records, period, customer) == TrafficUsd(records, period, customer)
  {
    if records != [] { TrafficIs(records[..|records| - 1], period, customer); }
  }

  lemma {:induction false} SlotCostIs(records: seq<Record>, slot: Id, period: Window)
    ensures SlotCost(records, slot, period) == SlotUsd(records, slot, period)
  {
    if records != [] { SlotCostIs(records[..|records| - 1], slot, period); }
  }

  // ----- What a customer bears -----

  ghost function CostOfSlot(records: seq<Record>, period: Window): Id -> real { slot => SlotUsd(records, slot, period) }

  /** A used slot's cost by connection time, an unused one's on Unallocated. */
  ghost function BorneBy(records: seq<Record>, period: Window, customer: Id): Id -> real {
    slot =>
      var used, own := UsedMs(records, slot, period, None), UsedMs(records, slot, period, Some(customer));
      if used > 0 then SlotUsd(records, slot, period) * (own as real / used as real)
      else if customer == "Unallocated" then SlotUsd(records, slot, period)
      else 0.0
  }

  /** Every provisioned slot belongs to `slots`. */
  ghost predicate ProvisionedAmong(records: seq<Record>, slots: set<Id>) {
    forall r :: r in records && r.kind == Capacity && r.proxySlotId.Some? ==> r.proxySlotId.value in slots
  }

  lemma OneSlotBorne(records: seq<Record>, period: Window, customer: Option<Id>, slot: Id)
    ensures Times(SlotCost(records, slot, period), Share(records, slot, customer, period))
         == if customer.None? then SlotUsd(records, slot, period) else BorneBy(records, period, customer.value)(slot)
  {
    SlotCostIs(records, slot, period);
    TimesAre(records, slot, period, None);
    TimesAre(records, slot, period, customer);
    SlotTimeNonNegative(records, slot, None, period);
    hide SlotTime, SlotCost, UsedMs, SlotUsd;
  }

  /** The estimate is traffic and the cost of all slots; a customer's is its own traffic and
      its part of every slot. */
  lemma EstimateByUse(records: seq<Record>, period: Window, customer: Id, slots: set<Id>)
    requires ProvisionedAmong(records, slots)
    ensures Estimate(records, period, None)
         == TrafficUsd(records, period, None) + SumOver(slots, CostOfSlot(records, period))
    ensures Estimate(records, period, Some(customer))
         == TrafficUsd(records, period, Some(customer)) + SumOver(slots, BorneBy(records, period, customer))
  {
    assert ChargedAmong(records, period, slots) by {
      forall r | r in records && r.kind == Attempt ensures SlotCharge(r, period) == 0.0 { NothingCharged(r, period); }
    }
    hide SumOver, SlotTime, SlotCost, UsedMs, SlotUsd, Share, TrafficUsd, TrafficCost, EstimateOf, ChargedAmong;
    SlotsAndRecords(records, records, None, period, slots);
    SlotsAndRecords(records, records, Some(customer), period, slots);
    TrafficIs(records, period, None);
    TrafficIs(records, period, Some(customer));
    forall slot ensures CostBySlot(records, records, None, period)(slot) == CostOfSlot(records, period)(slot)
                ensures CostBySlot(records, records, Some(customer), period)(slot)
                  == BorneBy(records, period, customer)(slot)
    {
      OneSlotBorne(records, period, None, slot);
      OneSlotBorne(records, period, Some(customer), slot);
    }
    SumEqual(slots, CostBySlot(records, records, None, period), CostOfSlot(records, period));
    SumEqual(slots, CostBySlot(records, records, Some(customer), period), BorneBy(records, period, customer));
  }

  /** With all capacity on one slot: what a customer pays beyond its traffic is to the cost
      of the slot as its connection time is to all connection time; an unused slot is on
      Unallocated alone. */
  lemma UsersPay(records: seq<Record>, period: Window, customer: Id, slot: Id)
    requires ProvisionedAmong(records, {slot})
    ensures var used, own := UsedMs(records, slot, period, None), UsedMs(records, slot, period, Some(customer));
            var cost := Estimate(records, period, None) - TrafficUsd(records, period, None);
            var paid := Estimate(records, period, Some(customer)) - TrafficUsd(records, period, Some(customer));
            && cost == SlotUsd(records, slot, period)
            && (used > 0 ==> paid * used as real == cost * own as real)
            && (used == 0 ==> paid == if customer == "Unallocated" then cost else 0.0)
            && 0 <= used
  {
    hide BorneBy, Estimate, TrafficUsd, SlotUsd, UsedMs, SumOver;
    EstimateByUse(records, period, customer, {slot});
    SumPoint({slot}, slot, CostOfSlot(records, period));
    SumPoint({slot}, slot, BorneBy(records, period, customer));
    BorneIs(records, period, customer, slot);
  }

  lemma BorneIs(records: seq<Record>, period: Window, customer: Id, slot: Id)
    ensures var used, own := UsedMs(records, slot, period, None), UsedMs(records, slot, period, Some(customer));
            var cost, paid := SlotUsd(records, slot, period), BorneBy(records, period, customer)(slot);
            && (used > 0 ==> paid * used as real == cost * own as real)
            && (used == 0 ==> paid == if customer == "Unallocated" then cost else 0.0)
            && 0 <= used
  {
    TimesAre(records, slot, period, None);
    SlotTimeNonNegative(records, slot, None, period);
    hide SlotTime, SlotUsd, UsedMs;
    var used, own := UsedMs(records, slot, period, None), UsedMs(records, slot, period, Some(customer));
    if used > 0 { Cancel(SlotUsd(records, slot, period), own as real, used as real); }
  }

  lemma Cancel(cost: real, own: real, used: real)
    requires used > 0.0
    ensures cost * (own / used) * used == cost * own
  {
    assert own / used * used == own;
  }

  /** A slot held for a twelfth of 365.25 days costs its price; the customer connected on it
      all that time bears it all, and nobody else anything. */
  lemma MonthOnOneSlot(slot: Id, price: real, customer: Id, other: Id)
    requires other != customer && 0.0 <= price
    ensures var period := Window(0, 2_629_800_000);
            var records := [SlotRecord(slot, price, 0, 2_629_800_000), SlotAttempt(slot, customer, 0, 2_629_800_000)];
            && Estimate(records, period, None) == price
            && Estimate(records, period, Some(customer)) == price && Estimate(records, period, Some(other)) == 0.0
  {
    var period := Window(0, 2_629_800_000);
    var x, y := SlotRecord(slot, price, 0, 2_629_800_000), SlotAttempt(slot, customer, 0, 2_629_800_000);
    TwoRecords(x, y, slot, period, None);
    TwoRecords(x, y, slot, period, Some(customer));
    TwoRecords(x, y, slot, period, Some(other));
    hide UsedMs, TrafficUsd, SlotUsd, Estimate;
    UsersPay([x, y], period, customer, slot);
    UsersPay([x, y], period, other, slot);
    assert 2_629_800_000 as real / 2629800000.0 == 1.0;
    Proportion(Estimate([x, y], period, Some(customer)), price, 2_629_800_000.0, 2_629_800_000.0);
    Proportion(Estimate([x, y], period, Some(other)), price, 2_629_800_000.0, 0.0);
  }

  lemma Proportion(paid: real, cost: real, used: real, own: real)
    requires used > 0.0 && paid * used == cost * own && (own == used || own == 0.0)
    ensures paid == if own == 0.0 then 0.0 else cost
  {
  }

  lemma TwoRecords(x: Record, y: Record, slot: Id, period: Window, customer: Option<Id>)
    ensures TrafficUsd([x, y], period, customer)
      == TrafficUsd([x], period, customer) + TrafficUsd([y], period, customer)
    ensures UsedMs([x, y], slot, period, customer)
      == UsedMs([x], slot, period, customer) + UsedMs([y], slot, period, customer)
    ensures SlotUsd([x, y], slot, period) == SlotUsd([x], slot, period) + SlotUsd([y], slot, period)
    ensures TrafficUsd([], period, customer) == SlotUsd([], slot, period) == 0.0
      && UsedMs([], slot, period, customer) == 0
  {
    assert [x, y][..1] == [x] && [x][..0] == [] && [y][..0] == [];
  }

  /** The record of a healthy slot, as built for `provider` "p". */
  function SlotRecord(slot: Id, priceUsd: real, from: int, to: int): Record
    requires from < to && 0.0 <= priceUsd
  {
    CapacityRecord(SlotCapacity("p", "id", slot, from, to, priceUsd, None, None, None)).value
  }

  /** An unpriced attempt connected on a slot. */
  function SlotAttempt(slot: Id, customer: Id, from: int, to: int): Record {
    GibAttempt(customer, "p", None).(
      proxySlotId := Some(slot), connectionStartedAt := Some(from), connectionEndedAt := Some(to))
  }
}
