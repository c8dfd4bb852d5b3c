/** estimatedCost as the source runs it: one pass filling a map of slot costs and a
    nested map of connection time, then one pass over the slots. */
module CostEstimation {
  import opened Options
  import opened Windows
  import opened UsageRecords
  import opened Sums
  import opened Estimates

  type Costs = map<Id, real>
  type Connections = map<Id, map<Id, int>>

  function SlotCost(records: seq<Record>, slot: Id, period: Window): real {
    if records == [] then 0.0
    else
      var last := |records| - 1;
      SlotCost(records[..last], slot, period)
        + (if OnSlot(records[last], slot) then SlotCharge(records[last], period) else 0.0)
  }

  function TrafficCost(records: seq<Record>, period: Window, customer: Option<Id>): real {
    if records == [] then 0.0
    else
      var last := |records| - 1;
      TrafficCost(records[..last], period, customer) + TrafficCharge(records[last], period, customer)
  }

  function ConnectionMs(records: seq<Record>, period: Window, customer: Option<Id>): int {
    if records == [] then 0
    else
      var last := |records| - 1;
      ConnectionMs(records[..last], period, customer)
      + (if CustomerIs(records[last], customer) then Length(ConnectionWindow(records[last], period)) else 0)
  }

  function CostAt(costs: Costs, slot: Id): real { if slot in costs then costs[slot] else 0.0 }

  function TimesAt(connections: Connections, slot: Id): map<Id, int> {
    if slot in connections then connections[slot] else map[]
  }

  function TimeAt(connections: Connections, slot: Id, customer: Id): int {
    var times := TimesAt(connections, slot);
    if customer in times then times[customer] else 0
  }

  /** What the two maps hold after a prefix of the records. */
  ghost predicate Filled(records: seq<Record>, period: Window, costs: Costs, connections: Connections) {
    && (forall slot :: CostAt(costs, slot) == SlotCost(records, slot, period))
    && (forall slot, c :: TimeAt(connections, slot, c) == SlotTime(records, slot, Some(c), period))
  }

  /** The first pass adds one record to the maps. */
  method AddRecord(r: Record, period: Window, costs: Costs, connections: Connections, ghost before: seq<Record>)
    returns (costs': Costs, connections': Connections)
    requires Filled(before, period, costs, connections)
    ensures Filled(before + [r], period, costs', connections')
    ensures costs.Keys <= costs'.Keys
    ensures r.proxySlotId.Some? && SlotCharge(r, period) != 0.0 ==> r.proxySlotId.value in costs'
  {
    costs', connections' := costs, connections;
    assert (before + [r])[..|before|] == before;
    if r.proxySlotId.Some? {
      var slot := r.proxySlotId.value;
      if r.kind == Capacity && r.pricingModel == Some(PerDeviceMonth) && r.priceUsd.Some? {
        var window := Clipped(Some(r.startedAt), Some(r.completedAt), period.start, period.end);
        if window.Some? {
          var charge := Times((window.value.end - window.value.start) as real / SLOT_MONTH_MS, r.priceUsd.value);
          assert charge == SlotCharge(r, period);
          costs' := costs[slot := CostAt(costs, slot) + charge];
        }
      } else if r.kind == Attempt {
        var window := Clipped(r.connectionStartedAt, r.connectionEndedAt, period.start, period.end);
        if window.Some? {
          var duration := window.value.end - window.value.start;
          var byCustomer := TimesAt(connections, slot);
          byCustomer := byCustomer[r.customerId := TimeAt(connections, slot, r.customerId) + duration];
          connections' := connections[slot := byCustomer];
        }
      }
    }
    if r.kind == Attempt || r.pricingModel != Some(PerDeviceMonth) || r.priceUsd.None?
      || CapacityWindow(r, period).None? {
      NoCharge(r, period);
    }
  }

  lemma NoCharge(r: Record, period: Window)
    requires r.pricingModel != Some(PerDeviceMonth) || r.priceUsd.None? || CapacityWindow(r, period).None?
    ensures SlotCharge(r, period) == 0.0
  {
  }

  // ----- The second pass -----

  ghost function Value(m: map<Id, int>): Id -> real { c => if c in m then m[c] as real else 0.0 }

  /** `[...byCustomer.values()].reduce((sum, value) => sum + value, 0)`. */
  method SumValues(m: map<Id, int>) returns (total: int)
    ensures total as real == SumOver(m.Keys, Value(m))
  {
    total := 0;
    ghost var f := Value(m);
    var rest := m.Keys;
    while rest != {}
      invariant rest <= m.Keys
      invariant total as real + SumOver(rest, f) == SumOver(m.Keys, f)
      decreases rest
    {
      var c :| c in rest;
      SumRemove(rest, c, f);
      total := total + m[c];
      rest := rest - {c};
    }
  }

  /** The customers with an entry are all that used the slot, so their times sum
      to the slot's whole connection time. */
  lemma EntriesAreUsers(records: seq<Record>, period: Window, costs: Costs, connections: Connections, slot: Id)
    requires Filled(records, period, costs, connections)
    ensures SumOver(TimesAt(connections, slot).Keys, Value(TimesAt(connections, slot)))
      == SlotTime(records, slot, None, period) as real
  {
    var times := TimesAt(connections, slot);
    forall r | r in records && OnSlot(r, slot) && ConnectionWindow(r, period).Some? ensures r.customerId in times.Keys {
      UserHasTime(records, slot, period, r);
      assert TimeAt(connections, slot, r.customerId) == SlotTime(records, slot, Some(r.customerId), period);
    }
    SlotTimeSplits(records, slot, period, times.Keys);
    forall c | c in times.Keys ensures Value(times)(c) == TimeByCustomer(records, slot, period)(c) {
      assert TimeAt(connections, slot, c) == SlotTime(records, slot, Some(c), period);
    }
    SumEqual(times.Keys, Value(times), TimeByCustomer(records, slot, period));
  }

  lemma {:induction false} UserHasTime(records: seq<Record>, slot: Id, period: Window, r: Record)
    requires r in records && OnSlot(r, slot) && ConnectionWindow(r, period).Some?
    ensures SlotTime(records, slot, Some(r.customerId), period) > 0
  {
    var last := |records| - 1;
    SlotTimeNonNegative(records[..last], slot, Some(r.customerId), period);
    if records[last] != r {
      assert records == records[..last] + [records[last]];
      UserHasTime(records[..last], slot, period, r);
    }
  }

  /** What one slot contributes for the asked customer. */
  method SlotAmount(
    slotCost: real, byCustomer: map<Id, int>, customer: Option<Id>, ghost all: seq<Record>, ghost slot: Id,
    ghost period: Window)
    returns (amount: real)
    requires SumOver(byCustomer.Keys, Value(byCustomer)) == SlotTime(all, slot, None, period) as real
    requires forall c :: (if c in byCustomer then byCustomer[c] else 0) == SlotTime(all, slot, Some(c), period)
    ensures amount == Times(slotCost, Share(all, slot, customer, period))
  {
    if customer.None? {
      amount := slotCost;
      return;
    }
    var total := SumValues(byCustomer);
    if total == 0 {
      amount := if customer.value == UNALLOCATED then slotCost else 0.0;
    } else {
      var own := if customer.value in byCustomer then byCustomer[customer.value] else 0;
      assert own == SlotTime(all, slot, customer, period);
      assert Share(all, slot, customer, period) == own as real / total as real;
      amount := Times(slotCost, own as real / total as real);
    }
  }

  ghost function AmountBySlot(costs: Costs, all: seq<Record>, customer: Option<Id>, period: Window): Id -> real {
    slot => Times(CostAt(costs, slot), Share(all, slot, customer, period))
  }

  method AddSlots(
    costs: Costs, connections: Connections, customer: Option<Id>, ghost all: seq<Record>, ghost period: Window)
    returns (amount: real)
    requires Filled(all, period, costs, connections)
    ensures amount == SumOver(costs.Keys, AmountBySlot(costs, all, customer, period))
  {
    amount := 0.0;
    ghost var f := AmountBySlot(costs, all, customer, period);
    var rest := costs.Keys;
    while rest != {}
      invariant rest <= costs.Keys
      invariant amount + SumOver(rest, f) == SumOver(costs.Keys, f)
      decreases rest
    {
      var slot :| slot in rest;
      SumRemove(rest, slot, f);
      EntriesAreUsers(all, period, costs, connections, slot);
      forall c ensures (if c in TimesAt(connections, slot) then TimesAt(connections, slot)[c] else 0)
        == SlotTime(all, slot, Some(c), period) {
        assert TimeAt(connections, slot, c) == SlotTime(all, slot, Some(c), period);
      }
      var part := SlotAmount(costs[slot], TimesAt(connections, slot), customer, all, slot, period);
      amount := amount + part;
      rest := rest - {slot};
    }
  }

  // ----- Slot by slot equals record by record -----

  ghost function CostBySlot(records: seq<Record>, all: seq<Record>, customer: Option<Id>, period: Window): Id -> real {
    slot => Times(SlotCost(records, slot, period), Share(all, slot, customer, period))
  }

  lemma TimesAdd(a: real, b: real, c: real)
    ensures Times(a + b, c) == Times(a, c) + Times(b, c)
    ensures Times(0.0, c) == 0.0
  {
  }

  /** Slots that charge something all belong to `slots`. */
  ghost predicate ChargedAmong(records: seq<Record>, period: Window, slots: set<Id>) {
    forall r :: r in records && r.proxySlotId.Some? && SlotCharge(r, period) != 0.0 ==> r.proxySlotId.value in slots
  }

  lemma {:induction false} SlotsAndRecords(
    records: seq<Record>, all: seq<Record>, customer: Option<Id>, period: Window, slots: set<Id>)
    requires ChargedAmong(records, period, slots)
    ensures TrafficCost(records, period, customer) + SumOver(slots, CostBySlot(records, all, customer, period))
         == EstimateOf(records, all, period, customer)
  {
    var total := CostBySlot(records, all, customer, period);
    hide Times, Share, SlotCharge, TrafficCharge;
    if records == [] {
      forall slot | slot in slots ensures total(slot) == 0.0 { TimesAdd(0.0, 0.0, Share(all, slot, customer, period)); }
      SumZero(slots, total);
    } else {
      var rest, r := records[..|records| - 1], records[|records| - 1];
      var before := CostBySlot(rest, all, customer, period);
      var own := (slot: Id) => if OnSlot(r, slot) then SlotPart(r, all, period, customer) else 0.0;
      assert forall x :: x in rest ==> x in records;
      SlotsAndRecords(rest, all, customer, period, slots);
      forall slot | slot in slots ensures total(slot) == before(slot) + own(slot) {
        TimesAdd(SlotCost(rest, slot, period), if OnSlot(r, slot) then SlotCharge(r, period)
          else 0.0, Share(all, slot, customer, period));
        TimesAdd(0.0, 0.0, Share(all, slot, customer, period));
      }
      SumAdd(slots, before, own, total);
      OwnPart(r, all, customer, period, slots, own);
    }
  }

  lemma OwnPart(r: Record, all: seq<Record>, customer: Option<Id>, period: Window, slots: set<Id>, own: Id -> real)
    requires r.proxySlotId.Some? && SlotCharge(r, period) != 0.0 ==> r.proxySlotId.value in slots
    requires forall slot :: own(slot) == if OnSlot(r, slot) then SlotPart(r, all, period, customer) else 0.0
    ensures SumOver(slots, own) == SlotPart(r, all, period, customer)
  {
    if r.proxySlotId.Some? && r.proxySlotId.value in slots {
      SumPoint(slots, r.proxySlotId.value, own);
    } else {
      if r.proxySlotId.Some? { TimesAdd(0.0, 0.0, Share(all, r.proxySlotId.value, customer, period)); }
      SumZero(slots, own);
    }
  }

  method EstimatedCost(
    records: seq<Record>, period: Window, customer: Option<Id>) returns (amount: real, connectionMs: int)
    ensures amount == Estimate(records, period, customer)
    ensures connectionMs == ConnectionMs(records, period, customer)
  {
    amount, connectionMs := 0.0, 0;
    var costs: Costs, connections: Connections := map[], map[];
    for i := 0 to |records|
      invariant amount == TrafficCost(records[..i], period, customer)
      invariant connectionMs == ConnectionMs(records[..i], period, customer)
      invariant Filled(records[..i], period, costs, connections)
      invariant ChargedAmong(records[..i], period, costs.Keys)
    {
      var r := records[i];
      assert records[..i + 1] == records[..i] + [r];
      assert records[..i + 1][..i] == records[..i];
      if r.pricingModel == Some(PerGib) && r.priceUsd.Some? && period.start <= r.completedAt < period.end
        && CustomerIs(r, customer) {
        amount := amount + Times((r.bytesSent + r.bytesReceived) as real / GIB, r.priceUsd.value);
      }
      connectionMs := connectionMs + (if CustomerIs(r, customer) then Length(ConnectionWindow(r, period)) else 0);
      costs, connections := AddRecord(r, period, costs, connections, records[..i]);
    }
    assert records[..|records|] == records;
    var slots := AddSlots(costs, connections, customer, records, period);
    SumEqual(costs.Keys, AmountBySlot(costs, records, customer, period),
      CostBySlot(records, records, customer, period));
    SlotsAndRecords(records, records, customer, period, costs.Keys);
    amount := amount + slots;
  }
}
