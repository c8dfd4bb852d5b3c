/** capacityMetrics: per-slot sweeps over a period, against what was true of each
    slot at each millisecond. */
module CapacityMetrics {
  import opened Options
  import opened Windows
  import opened Concurrency
  import opened UsageRecords
  import opened SlotShares

  datatype Use = Connection | HealthySlot | UnhealthySlot

  function UseOf(r: Record): Use {
    if r.kind == Attempt then Connection else if r.capacityState == Unhealthy then UnhealthySlot else HealthySlot
  }

  function WindowOf(r: Record, period: Window): Option<Window> {
    if r.kind == Attempt then Clipped(r.connectionStartedAt, r.connectionEndedAt, period.start, period.end)
    else Clipped(Some(r.startedAt), Some(r.completedAt), period.start, period.end)
  }

  /** The record puts its slot to this use at `t`. */
  predicate InUse(r: Record, slot: Id, use: Use, t: int) {
    && r.proxySlotId == Some(slot) && UseOf(r) == use
    && if r.kind == Attempt
       then r.connectionStartedAt.Some? && r.connectionEndedAt.Some?
         && r.connectionStartedAt.value <= t < r.connectionEndedAt.value
       else r.startedAt <= t < r.completedAt
  }

  /** The slot is put to this use at `t`. */
  ghost predicate SlotIs(records: seq<Record>, slot: Id, use: Use, t: int) {
    exists r :: r in records && InUse(r, slot, use, t)
  }

  ghost function SlotsOf(records: seq<Record>): set<Id> {
    set r | r in records && r.proxySlotId.Some? :: r.proxySlotId.value
  }

  /** The windows of one use on the given slots, in record order. */
  ghost function WindowsIn(records: seq<Record>, slots: set<Id>, use: Use, period: Window): seq<Window> {
    if records == [] then []
    else
      var last := |records| - 1;
      var r := records[last];
      var rest := WindowsIn(records[..last], slots, use, period);
      if r.proxySlotId.Some? && r.proxySlotId.value in slots && UseOf(r) == use && WindowOf(r, period).Some?
      then rest + [WindowOf(r, period).value] else rest
  }

  lemma {:induction false} WindowsInside(records: seq<Record>, slots: set<Id>, use: Use, period: Window)
    ensures forall w :: w in WindowsIn(records, slots, use, period) ==> period.start <= w.start < w.end <= period.end
  {
    if records != [] { WindowsInside(records[..|records| - 1], slots, use, period); }
  }

  lemma WindowPointwise(r: Record, slot: Id, use: Use, period: Window, t: int)
    requires r.proxySlotId == Some(slot) && UseOf(r) == use
    ensures InUse(r, slot, use, t) && Within(t, period.start, period.end)
       <==> WindowOf(r, period).Some? && WindowOf(r, period).value.start <= t < WindowOf(r, period).value.end
  {
    var window := WindowOf(r, period);
    var covered := if window.Some? then Span(window.value.start, window.value.end) else {};
    if r.kind == Attempt {
      if r.connectionStartedAt.Some? && r.connectionEndedAt.Some? {
        assert covered == Span(period.start, period.end) * Span(r.connectionStartedAt.value, r.connectionEndedAt.value);
      }
    } else {
      assert covered == Span(period.start, period.end) * Span(r.startedAt, r.completedAt);
    }
    assert t in covered <==> window.Some? && window.value.start <= t < window.value.end;
  }

  /** The windows of one slot cover the milliseconds at which the slot has the use. */
  lemma {:induction false} WindowsPointwise(records: seq<Record>, slot: Id, use: Use, period: Window, t: int)
    ensures t in Covered(WindowsIn(records, {slot}, use, period))
       <==> Within(t, period.start, period.end) && SlotIs(records, slot, use, t)
  {
    if records != [] {
      var last := |records| - 1;
      var rest, r := records[..last], records[last];
      assert records == rest + [r];
      WindowsPointwise(rest, slot, use, period, t);
      assert forall x :: x in records <==> x in rest || x == r;
      assert SlotIs(records, slot, use, t) <==> SlotIs(rest, slot, use, t) || InUse(r, slot, use, t);
      if r.proxySlotId == Some(slot) && UseOf(r) == use {
        WindowPointwise(r, slot, use, period, t);
        if WindowOf(r, period).Some? {
          var w := WindowOf(r, period).value;
          CoveredConcat(WindowsIn(rest, {slot}, use, period), [w]);
          assert Covered([w]) == Span(w.start, w.end);
        }
      }
    }
  }

  // ----- Slot-milliseconds -----

  /** An attempt is connected on the slot. */
  predicate Connects(r: Record, slot: Id, t: int) {
    && r.kind == Attempt && r.proxySlotId == Some(slot)
    && r.connectionStartedAt.Some? && r.connectionEndedAt.Some?
    && r.connectionStartedAt.value <= t < r.connectionEndedAt.value
  }

  /** A capacity record provisions the slot, in this health. */
  predicate Provisions(r: Record, slot: Id, health: SlotHealth, t: int) {
    r.kind == Capacity && r.proxySlotId == Some(slot) && r.capacityState == health && r.startedAt <= t < r.completedAt
  }

  ghost predicate ConnectedOn(
    records: seq<Record>, slot: Id, t: int) { exists r :: r in records && Connects(r, slot, t) }

  ghost predicate ProvisionedAs(records: seq<Record>, slot: Id, health: SlotHealth, t: int) {
    exists r :: r in records && Provisions(r, slot, health, t)
  }

  datatype Measure = Occupied | ProvisionedSlot | UnhealthyTime | IdleTime

  /** What is measured, in terms of the records alone. */
  ghost predicate Holds(records: seq<Record>, measure: Measure, slot: Id, t: int) {
    match measure
    case Occupied => ConnectedOn(records, slot, t)
    case ProvisionedSlot => ProvisionedAs(records, slot, Healthy, t) || ProvisionedAs(records, slot, Unhealthy, t)
    case UnhealthyTime => ProvisionedAs(records, slot, Unhealthy, t)
    case IdleTime => ProvisionedAs(records, slot, Healthy, t) && !ConnectedOn(records, slot, t)
  }

  /** The uses of the first loop are what the records say. */
  lemma UsesAre(records: seq<Record>, slot: Id, t: int)
    ensures SlotIs(records, slot, Connection, t) <==> ConnectedOn(records, slot, t)
    ensures SlotIs(records, slot, HealthySlot, t) <==> ProvisionedAs(records, slot, Healthy, t)
    ensures SlotIs(records, slot, UnhealthySlot, t) <==> ProvisionedAs(records, slot, Unhealthy, t)
  {
    forall r
      ensures InUse(r, slot, Connection, t) <==> Connects(r, slot, t)
      ensures InUse(r, slot, HealthySlot, t) <==> Provisions(r, slot, Healthy, t)
      ensures InUse(r, slot, UnhealthySlot, t) <==> Provisions(r, slot, Unhealthy, t)
    {
    }
    hide InUse, Connects, Provisions;
  }

  /** The sweeps count from the epoch on, which is all of every period that does not start
      before it. */
  predicate Counts(period: Window, t: int) { Within(t, period.start, period.end) && 0 <= t }

  /** The milliseconds of the period at which the measure holds of the slot. */
  ghost function TimesOf(records: seq<Record>, measure: Measure, slot: Id, period: Window): set<int> {
    set t | period.start <= t < period.end && Counts(period, t) && Holds(records, measure, slot, t)
  }

  /** The (slot, millisecond) pairs of the period at which the measure holds. */
  ghost function SlotMs(records: seq<Record>, measure: Measure, slots: set<Id>, period: Window): set<(Id, int)> {
    set slot, t | slot in slots && period.start <= t < period.end && Counts(period, t)
      && Holds(records, measure, slot, t) :: (slot, t)
  }

  ghost function Paired(slot: Id, times: set<int>): set<(Id, int)> { set t | t in times :: (slot, t) }

  lemma {:induction false} PairedSize(slot: Id, times: set<int>)
    ensures |Paired(slot, times)| == |times|
    decreases |times|
  {
    if times == {} {
      assert Paired(slot, times) == {};
    } else {
      Inhabited(times);
      var t :| t in times;
      PairedSize(slot, times - {t});
      assert Paired(slot, times) == Paired(slot, times - {t}) + {(slot, t)};
    }
  }

  lemma SlotMsStep(records: seq<Record>, measure: Measure, slots: set<Id>, slot: Id, period: Window)
    requires slot !in slots
    ensures |SlotMs(records, measure, slots + {slot}, period)|
      == |SlotMs(records, measure, slots, period)| + |TimesOf(records, measure, slot, period)|
  {
    hide Holds;
    var own := Paired(slot, TimesOf(records, measure, slot, period));
    PairedSize(slot, TimesOf(records, measure, slot, period));
    assert SlotMs(records, measure, slots + {slot}, period) == SlotMs(records, measure, slots, period) + own;
    assert SlotMs(records, measure, slots, period) !! own;
  }

  // ----- The two loops -----

  datatype Slot = Slot(connections: seq<Window>, healthy: seq<Window>, unhealthy: seq<Window>)

  function EntryAt(slots: map<Id, Slot>, slot: Id): Slot {
    if slot in slots then slots[slot] else Slot([], [], [])
  }

  ghost predicate Gathered(records: seq<Record>, period: Window, slots: map<Id, Slot>) {
    forall slot ::
      && EntryAt(slots, slot).connections == WindowsIn(records, {slot}, Connection, period)
      && EntryAt(slots, slot).healthy == WindowsIn(records, {slot}, HealthySlot, period)
      && EntryAt(slots, slot).unhealthy == WindowsIn(records, {slot}, UnhealthySlot, period)
  }

  method Gather(records: seq<Record>, period: Window) returns (slots: map<Id, Slot>)
    ensures Gathered(records, period, slots)
    ensures slots.Keys <= SlotsOf(records)
  {
    slots := map[];
    for i := 0 to |records|
      invariant Gathered(records[..i], period, slots)
      invariant slots.Keys <= SlotsOf(records)
    {
      var r := records[i];
      assert records[..i + 1][..i] == records[..i];
      var window := WindowOf(r, period);
      if r.proxySlotId.Some? && window.Some? {
        var slot := r.proxySlotId.value;
        var entry := EntryAt(slots, slot);
        match UseOf(r) {
          case Connection => entry := entry.(connections := entry.connections + [window.value]);
          case UnhealthySlot => entry := entry.(unhealthy := entry.unhealthy + [window.value]);
          case HealthySlot => entry := entry.(healthy := entry.healthy + [window.value]);
        }
        slots := slots[slot := entry];
      }
    }
    assert records[..|records|] == records;
  }

  datatype SlotTimes = SlotTimes(occupied: int, provisioned: int, unhealthy: int, idle: int)

  /** The four sweeps over one slot's windows. */
  method MeasureSlot(
    entry: Slot, ghost records: seq<Record>, ghost slot: Id, ghost period: Window) returns (m: SlotTimes)
    requires entry.connections == WindowsIn(records, {slot}, Connection, period)
    requires entry.healthy == WindowsIn(records, {slot}, HealthySlot, period)
    requires entry.unhealthy == WindowsIn(records, {slot}, UnhealthySlot, period)
    ensures m.occupied == |TimesOf(records, Occupied, slot, period)|
    ensures m.provisioned == |TimesOf(records, ProvisionedSlot, slot, period)|
    ensures m.unhealthy == |TimesOf(records, UnhealthyTime, slot, period)|
    ensures m.idle == |TimesOf(records, IdleTime, slot, period)|
  {
    var occupied := UnionDuration(entry.connections);
    var provisioned := UnionDuration(entry.healthy + entry.unhealthy);
    var unhealthy := UnionDuration(entry.unhealthy);
    var idle := HealthyIdle(entry.connections, entry.healthy);
    CoveredConcat(entry.healthy, entry.unhealthy);
    CoveredTimes(records, slot, period);
    m := SlotTimes(occupied, provisioned, unhealthy, idle);
  }

  lemma CoveredTimes(records: seq<Record>, slot: Id, period: Window)
    ensures var c := Covered(WindowsIn(records, {slot}, Connection, period));
            var h := Covered(WindowsIn(records, {slot}, HealthySlot, period));
            var u := Covered(WindowsIn(records, {slot}, UnhealthySlot, period));
            && FromEpoch(c) == TimesOf(records, Occupied, slot, period)
            && FromEpoch(h + u) == TimesOf(records, ProvisionedSlot, slot, period)
            && FromEpoch(u) == TimesOf(records, UnhealthyTime, slot, period)
            && FromEpoch(h - c) == TimesOf(records, IdleTime, slot, period)
  {
    var c := Covered(WindowsIn(records, {slot}, Connection, period));
    var h := Covered(WindowsIn(records, {slot}, HealthySlot, period));
    var u := Covered(WindowsIn(records, {slot}, UnhealthySlot, period));
    hide WindowsIn, Covered, SlotIs, ConnectedOn, ProvisionedAs;
    forall t
      ensures t in FromEpoch(c) <==> t in TimesOf(records, Occupied, slot, period)
      ensures t in FromEpoch(h + u) <==> t in TimesOf(records, ProvisionedSlot, slot, period)
      ensures t in FromEpoch(u) <==> t in TimesOf(records, UnhealthyTime, slot, period)
      ensures t in FromEpoch(h - c) <==> t in TimesOf(records, IdleTime, slot, period)
    {
      WindowsPointwise(records, slot, Connection, period, t);
      WindowsPointwise(records, slot, HealthySlot, period, t);
      WindowsPointwise(records, slot, UnhealthySlot, period, t);
      UsesAre(records, slot, t);
    }
    assert FromEpoch(c) == TimesOf(records, Occupied, slot, period);
    assert FromEpoch(h + u) == TimesOf(records, ProvisionedSlot, slot, period);
    assert FromEpoch(u) == TimesOf(records, UnhealthyTime, slot, period);
    assert FromEpoch(h - c) == TimesOf(records, IdleTime, slot, period);
  }

  lemma {:induction false} OpenConcat(a: seq<Window>, b: seq<Window>, t: int)
    ensures Open(a + b, t) == Open(a, t) + Open(b, t)
  {
    if a == [] {
      assert a + b == b;
    } else {
      assert (a + b)[1..] == a[1..] + b;
      OpenConcat(a[1..], b, t);
    }
  }

  lemma {:induction false} TotalLengthConcat(a: seq<Window>, b: seq<Window>)
    ensures TotalLength(a + b) == TotalLength(a) + TotalLength(b)
  {
    if a == [] {
      assert a + b == b;
    } else {
      assert (a + b)[1..] == a[1..] + b;
      TotalLengthConcat(a[1..], b);
    }
  }

  /** Adding one slot adds its windows, wherever they stand among the records. */
  lemma {:induction false} OpenBySlot(records: seq<Record>, slots: set<Id>, slot: Id, period: Window, t: int)
    requires slot !in slots
    ensures Open(WindowsIn(records, slots + {slot}, Connection, period), t)
         == Open(WindowsIn(records, slots, Connection, period), t)
           + Open(WindowsIn(records, {slot}, Connection, period), t)
    ensures TotalLength(WindowsIn(records, slots + {slot}, Connection, period))
         == TotalLength(WindowsIn(records, slots, Connection, period))
           + TotalLength(WindowsIn(records, {slot}, Connection, period))
  {
    if records != [] {
      var last := |records| - 1;
      var rest, r := records[..last], records[last];
      OpenBySlot(rest, slots, slot, period, t);
      if WindowOf(r, period).Some? {
        var w := [WindowOf(r, period).value];
        OpenConcat(WindowsIn(rest, slots + {slot}, Connection, period), w, t);
        OpenConcat(WindowsIn(rest, slots, Connection, period), w, t);
        OpenConcat(WindowsIn(rest, {slot}, Connection, period), w, t);
        TotalLengthConcat(WindowsIn(rest, slots + {slot}, Connection, period), w);
        TotalLengthConcat(WindowsIn(rest, slots, Connection, period), w);
        TotalLengthConcat(WindowsIn(rest, {slot}, Connection, period), w);
      }
    }
  }

  lemma {:induction false} NoSlots(records: seq<Record>, use: Use, period: Window)
    ensures WindowsIn(records, {}, use, period) == []
  {
    if records != [] { NoSlots(records[..|records| - 1], use, period); }
  }

  /** The attempt holds a connection on some slot at `t`. */
  predicate Holding(r: Record, t: int) {
    && r.kind == Attempt && r.proxySlotId.Some? && r.connectionStartedAt.Some? && r.connectionEndedAt.Some?
    && r.connectionStartedAt.value <= t < r.connectionEndedAt.value
  }

  /** The attempts that hold a connection at `t`, a time of the period. */
  ghost function HoldingAt(records: seq<Record>, period: Window, t: int): set<nat> {
    set i: nat | i < |records| && period.start <= t < period.end && Holding(records[i], t)
  }

  /** The connections open at `t` on any slot. */
  ghost function ConnectedAt(records: seq<Record>, period: Window, t: int): nat { |HoldingAt(records, period, t)| }

  /** The times of the period with at most `level` connections. */
  ghost function QuietMs(records: seq<Record>, period: Window, level: int): set<int> {
    set t | period.start <= t < period.end && ConnectedAt(records, period, t) <= level
  }

  /** The least level such that the times up to it reach 95 percent of the period. */
  ghost predicate IsP95(records: seq<Record>, period: Window, level: int) {
    && |QuietMs(records, period, level)| as real >= (period.end - period.start) as real * 0.95
    && forall lower :: lower < level ==>
      (|QuietMs(records, period, lower)| as real) < (period.end - period.start) as real * 0.95
  }

  lemma HoldingStep(rest: seq<Record>, r: Record, period: Window, t: int)
    ensures ConnectedAt(rest + [r], period, t)
         == ConnectedAt(rest, period, t) + (if period.start <= t < period.end && Holding(r, t) then 1 else 0)
  {
    var before, after := HoldingAt(rest, period, t), HoldingAt(rest + [r], period, t);
    forall i: nat | i < |rest| ensures (rest + [r])[i] == rest[i] { }
    if period.start <= t < period.end && Holding(r, t) {
      assert after == before + {|rest|};
    } else {
      assert after == before;
    }
  }

  /** The windows of all slots are open as the records say, for as long as they say. */
  lemma {:induction false} WindowsHold(records: seq<Record>, slots: set<Id>, period: Window, t: int)
    requires SlotsOf(records) <= slots
    ensures Open(WindowsIn(records, slots, Connection, period), t) == ConnectedAt(records, period, t)
    ensures TotalLength(WindowsIn(records, slots, Connection, period)) == UsedAnywhereMs(records, period, None)
  {
    hide ConnectedAt;
    if records == [] {
      assert HoldingAt(records, period, t) == {};
      NoneHolding(period, t);
    } else {
      var last := |records| - 1;
      var rest, r := records[..last], records[last];
      assert records == rest + [r] && r in records;
      assert forall x :: x in rest ==> x in records;
      WindowsHold(rest, slots, period, t);
      HoldingStep(rest, r, period, t);
      OneWindow(r, period, t);
      if WindowOf(r, period).Some? {
        OpenConcat(WindowsIn(rest, slots, Connection, period), [WindowOf(r, period).value], t);
        TotalLengthConcat(WindowsIn(rest, slots, Connection, period), [WindowOf(r, period).value]);
      }
    }
  }

  lemma NoneHolding(period: Window, t: int)
    ensures ConnectedAt([], period, t) == 0
  {
    assert HoldingAt([], period, t) == {};
  }

  lemma OneWindow(r: Record, period: Window, t: int)
    ensures r.kind == Attempt && r.proxySlotId.Some? ==>
      var window := WindowOf(r, period);
      var covers := window.Some? && window.value.start <= t < window.value.end;
      && (covers <==> Within(t, period.start, period.end) && Holding(r, t))
      && (if window.Some? then window.value.end - window.value.start else 0)
         == if r.connectionStartedAt.Some? && r.connectionEndedAt.Some?
            then OverlapMs(r.connectionStartedAt.value, r.connectionEndedAt.value, period) else 0
    ensures r.kind != Attempt || r.proxySlotId.None? ==> !Holding(r, t)
  {
    if r.kind == Attempt && r.proxySlotId.Some? { WindowPointwise(r, r.proxySlotId.value, Connection, period, t); }
  }

  lemma {:induction false} OnlySlotsWithWindows(records: seq<Record>, slots: set<Id>, more: set<Id>, period: Window)
    requires slots <= more
    requires forall slot :: slot in more && slot !in slots ==> WindowsIn(records, {slot}, Connection, period) == []
    ensures WindowsIn(records, slots, Connection, period) == WindowsIn(records, more, Connection, period)
  {
    if records != [] {
      var last := |records| - 1;
      var rest, r := records[..last], records[last];
      forall slot | slot in more && slot !in slots ensures WindowsIn(rest, {slot}, Connection, period) == [] {
        assert WindowsIn(records, {slot}, Connection, period) == [];
      }
      OnlySlotsWithWindows(rest, slots, more, period);
      if r.proxySlotId.Some? && r.proxySlotId.value in more - slots {
        assert WindowsIn(records, {r.proxySlotId.value}, Connection, period) == [];
      }
    }
  }

  datatype Metrics = Metrics(
    activeConnectionMs: int, occupiedSlotMs: int, provisionedSlotMs: int, healthyIdleSlotMs: int, unhealthySlotMs: int,
    peakConcurrentConnections: int, p95ConcurrentConnections: int)

  /** The totals over the slots handled so far. */
  ghost predicate Measured(records: seq<Record>, period: Window, done: set<Id>, m: Metrics, connections: seq<Window>) {
    && m.occupiedSlotMs == |SlotMs(records, Occupied, done, period)|
    && m.provisionedSlotMs == |SlotMs(records, ProvisionedSlot, done, period)|
    && m.unhealthySlotMs == |SlotMs(records, UnhealthyTime, done, period)|
    && m.healthyIdleSlotMs == |SlotMs(records, IdleTime, done, period)|
    && m.activeConnectionMs == TotalLength(WindowsIn(records, done, Connection, period))
    && (forall t :: Open(connections, t) == Open(WindowsIn(records, done, Connection, period), t))
    && (forall w :: w in connections ==> period.start <= w.start < w.end <= period.end)
  }

  lemma MeasuredStep(
    records: seq<Record>, period: Window, done: set<Id>, slot: Id, m: Metrics, connections: seq<Window>, s: SlotTimes,
    own: seq<Window>)
    requires slot !in done && Measured(records, period, done, m, connections)
    requires own == WindowsIn(records, {slot}, Connection, period)
    requires s.occupied == |TimesOf(records, Occupied, slot, period)|
    requires s.provisioned == |TimesOf(records, ProvisionedSlot, slot, period)|
    requires s.unhealthy == |TimesOf(records, UnhealthyTime, slot, period)|
    requires s.idle == |TimesOf(records, IdleTime, slot, period)|
    ensures Measured(records, period, done + {slot}, Metrics(
      m.activeConnectionMs + TotalLength(own), m.occupiedSlotMs + s.occupied, m.provisionedSlotMs + s.provisioned,
      m.healthyIdleSlotMs + s.idle, m.unhealthySlotMs + s.unhealthy, 0, 0), connections + own)
  {
    hide Holds, SlotMs, TimesOf, WindowsIn, Open, TotalLength;
    SlotMsStep(records, Occupied, done, slot, period);
    SlotMsStep(records, ProvisionedSlot, done, slot, period);
    SlotMsStep(records, UnhealthyTime, done, slot, period);
    SlotMsStep(records, IdleTime, done, slot, period);
    ConnectionsStep(records, period, done, slot, connections);
  }

  lemma ConnectionsStep(records: seq<Record>, period: Window, done: set<Id>, slot: Id, connections: seq<Window>)
    requires slot !in done
    requires forall t :: Open(connections, t) == Open(WindowsIn(records, done, Connection, period), t)
    ensures var own := WindowsIn(records, {slot}, Connection, period);
            && TotalLength(WindowsIn(records, done + {slot}, Connection, period))
              == TotalLength(WindowsIn(records, done, Connection, period)) + TotalLength(own)
            && (forall t :: Open(connections + own, t)
                 == Open(WindowsIn(records, done + {slot}, Connection, period), t))
            && (forall w :: w in own ==> period.start <= w.start < w.end <= period.end)
  {
    hide WindowsIn, Open, TotalLength;
    var own := WindowsIn(records, {slot}, Connection, period);
    OpenBySlot(records, done, slot, period, 0);
    forall t ensures Open(connections + own, t) == Open(WindowsIn(records, done + {slot}, Connection, period), t) {
      OpenConcat(connections, own, t);
      OpenBySlot(records, done, slot, period, t);
    }
    WindowsInside(records, {slot}, Connection, period);
  }

  lemma MeasuredStart(records: seq<Record>, period: Window)
    ensures Measured(records, period, {}, Metrics(0, 0, 0, 0, 0, 0, 0), [])
  {
    NoSlots(records, Connection, period);
    assert SlotMs(records, Occupied, {}, period) == {};
    assert SlotMs(records, ProvisionedSlot, {}, period) == {};
    assert SlotMs(records, UnhealthyTime, {}, period) == {};
    assert SlotMs(records, IdleTime, {}, period) == {};
  }

  method MeasureAll(
    slots: map<Id, Slot>, ghost records: seq<Record>, period: Window) returns (m: Metrics, connections: seq<Window>)
    requires Gathered(records, period, slots)
    ensures Measured(records, period, slots.Keys, m, connections)
  {
    hide Measured;
    MeasuredStart(records, period);
    m, connections := Metrics(0, 0, 0, 0, 0, 0, 0), [];
    var rest := slots.Keys;
    assert slots.Keys - rest == {};
    while rest != {}
      invariant rest <= slots.Keys
      invariant Measured(records, period, slots.Keys - rest, m, connections)
      decreases rest
    {
      var slot :| slot in rest;
      var entry := slots[slot];
      assert entry == EntryAt(slots, slot);
      var s := MeasureSlot(entry, records, slot, period);
      MeasuredStep(records, period, slots.Keys - rest, slot, m, connections, s, entry.connections);
      m := Metrics(
        m.activeConnectionMs + TotalLength(entry.connections), m.occupiedSlotMs + s.occupied,
          m.provisionedSlotMs + s.provisioned,
        m.healthyIdleSlotMs + s.idle, m.unhealthySlotMs + s.unhealthy, 0, 0);
      connections := connections + entry.connections;
      assert slots.Keys - rest + {slot} == slots.Keys - (rest - {slot});
      rest := rest - {slot};
    }
    assert slots.Keys - rest == slots.Keys;
  }

  /** Slots without an entry have no use during the period. */
  lemma NoEntryNoTime(records: seq<Record>, period: Window, slots: map<Id, Slot>, measure: Measure)
    requires Gathered(records, period, slots) && slots.Keys <= SlotsOf(records)
    ensures SlotMs(records, measure, slots.Keys, period) == SlotMs(records, measure, SlotsOf(records), period)
  {
    forall slot, t | slot !in slots.Keys && period.start <= t < period.end ensures !Holds(records, measure, slot, t) {
      assert EntryAt(slots, slot) == Slot([], [], []);
      WindowsPointwise(records, slot, Connection, period, t);
      WindowsPointwise(records, slot, HealthySlot, period, t);
      WindowsPointwise(records, slot, UnhealthySlot, period, t);
      UsesAre(records, slot, t);
    }
  }

  /** The record count, slot totals, peak and 95th percentile of one period. */
  method ComputeMetrics(records: seq<Record>, period: Window) returns (m: Metrics)
    requires period.start < period.end
    ensures m.occupiedSlotMs == |SlotMs(records, Occupied, SlotsOf(records), period)|
    ensures m.provisionedSlotMs == |SlotMs(records, ProvisionedSlot, SlotsOf(records), period)|
    ensures m.unhealthySlotMs == |SlotMs(records, UnhealthyTime, SlotsOf(records), period)|
    ensures m.healthyIdleSlotMs == |SlotMs(records, IdleTime, SlotsOf(records), period)|
    ensures m.activeConnectionMs == UsedAnywhereMs(records, period, None)
    ensures forall t :: ConnectedAt(records, period, t) <= m.peakConcurrentConnections
    ensures m.peakConcurrentConnections == 0
      || exists t :: ConnectedAt(records, period, t) == m.peakConcurrentConnections
    ensures IsP95(records, period, m.p95ConcurrentConnections)
    ensures 0 <= m.p95ConcurrentConnections <= m.peakConcurrentConnections
  {
    var slots := Gather(records, period);
    var connections: seq<Window>;
    m, connections := MeasureAll(slots, records, period);
    NoEntryNoTime(records, period, slots, Occupied);
    NoEntryNoTime(records, period, slots, ProvisionedSlot);
    NoEntryNoTime(records, period, slots, UnhealthyTime);
    NoEntryNoTime(records, period, slots, IdleTime);
    AllConnections(records, period, slots, connections);
    WindowsHold(records, SlotsOf(records), period, 0);
    hide UsedAnywhereMs, ConnectedAt, TotalLength, WindowsIn;
    var peak := PeakConcurrency(connections);
    var p95 := ConcurrencyPercentile(connections, period.start, period.end, 0.95);
    PeakAndPercentile(records, period, connections, peak, p95);
    m := m.(peakConcurrentConnections := peak, p95ConcurrentConnections := p95);
  }

  lemma AllConnections(records: seq<Record>, period: Window, slots: map<Id, Slot>, connections: seq<Window>)
    requires Gathered(records, period, slots) && slots.Keys <= SlotsOf(records)
    requires forall t :: Open(connections, t) == Open(WindowsIn(records, slots.Keys, Connection, period), t)
    ensures WindowsIn(records, slots.Keys, Connection, period)
      == WindowsIn(records, SlotsOf(records), Connection, period)
    ensures forall t :: Open(connections, t) == ConnectedAt(records, period, t)
  {
    forall slot | slot in SlotsOf(records) && slot !in slots.Keys
      ensures WindowsIn(records, {slot}, Connection, period) == [] {
      assert EntryAt(slots, slot) == Slot([], [], []);
    }
    OnlySlotsWithWindows(records, slots.Keys, SlotsOf(records), period);
    hide WindowsIn, Open, ConnectedAt;
    forall t ensures Open(connections, t) == ConnectedAt(records, period, t) {
      WindowsHold(records, SlotsOf(records), period, t);
    }
  }

  lemma PeakAndPercentile(records: seq<Record>, period: Window, connections: seq<Window>, peak: int, p95: int)
    requires period.start < period.end
    requires forall t :: Open(connections, t) == ConnectedAt(records, period, t)
    requires forall w :: w in connections ==> period.start <= w.start < w.end <= period.end
    requires 0 <= peak && (forall t :: Level(connections, t) <= peak)
      && (peak == 0 || exists t :: Level(connections, t) == peak)
    requires IsPercentile(connections, period.start, period.end, 0.95, p95)
    ensures forall t :: ConnectedAt(records, period, t) <= peak
    ensures peak == 0 || exists t :: ConnectedAt(records, period, t) == peak
    ensures IsP95(records, period, p95)
    ensures 0 <= p95 <= peak
  {
    hide ConnectedAt;
    forall t ensures Level(connections, t) == ConnectedAt(records, period, t) { LevelIsOpen(connections, t); }
    forall level ensures UpToLevel(connections, period.start, period.end, level) == QuietMs(records, period, level) { }
    assert UpToLevel(connections, period.start, period.end, -1) == {};
    PercentileAtMostPeak(connections, period.start, period.end, 0.95, p95, peak);
  }
}
