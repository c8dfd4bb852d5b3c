/** Slot claims: the loads counted from the active tunnels, the slot chosen for them, and
    how evenly many claims spread. */
module SlotAllocator {
  import opened Options
  import opened Sorting

  const TTL_MS := 120_000
  const SOFT_CONNECTIONS_PER_SLOT := 16

  /** Slots and providers stand for their position in the order of `localeCompare`. */
  type Slot = int

  datatype Tunnel = Tunnel(provider: int, slot: Option<Slot>, expiresAt: int)

  ghost function OnSlot(tunnels: map<nat, Tunnel>, provider: int, slot: Slot, now: int): set<nat> {
    set id | id in tunnels && tunnels[id].provider == provider && tunnels[id].slot == Some(slot)
      && tunnels[id].expiresAt > now
  }

  // ----- Choosing a slot -----

  datatype SlotLoad = Loaded(slot: Slot, load: nat)

  predicate NoLater(a: SlotLoad, b: SlotLoad) { a.load < b.load || (a.load == b.load && a.slot <= b.slot) }

  /** Which slots are saturated; by load alone, or by utilization and recent pressure too. */
  type Saturation = SlotLoad -> bool

  function ByLoadAlone(): Saturation { (c: SlotLoad) => c.load >= SOFT_CONNECTIONS_PER_SLOT }

  function HasRoom(saturated: Saturation): SlotLoad -> bool { c => !saturated(c) }

  function LoadAt(loads: map<Slot, nat>, slot: Slot): nat { if slot in loads then loads[slot] else 0 }

  function WithLoads(candidates: seq<Slot>, loads: map<Slot, nat>): (r: seq<SlotLoad>)
    ensures |r| == |candidates|
    ensures forall i :: 0 <= i < |r| ==> r[i] == Loaded(candidates[i], LoadAt(loads, candidates[i]))
  {
    seq(|candidates|, i requires 0 <= i < |candidates| => Loaded(candidates[i], LoadAt(loads, candidates[i])))
  }

  /** The preferred slot if it is a candidate, else the least loaded unsaturated one,
      else the least loaded. */
  function SelectSlot(candidates: seq<Slot>, loads: map<Slot, nat>, saturated: Saturation, preferred: Option<Slot>):
    (slot: Slot)
    requires candidates != []
    ensures slot in candidates
  {
    if preferred.Some? && preferred.value in candidates then preferred.value
    else
      var all := WithLoads(candidates, loads);
      var unsaturated := Filter(all, HasRoom(saturated));
      var pool := if unsaturated != [] then unsaturated else all;
      var first := SortBy(pool, NoLater)[0];
      SamePermutationElements(SortBy(pool, NoLater), pool);
      assert first in SortBy(pool, NoLater);
      assert first in all;
      first.slot
  }

  predicate IsSaturated(saturated: Saturation, loads: map<Slot, nat>, s: Slot) {
    saturated(Loaded(s, LoadAt(loads, s)))
  }

  /** Without affinity the choice is unsaturated unless every candidate is saturated, and
      least loaded among the candidates that are like it. */
  lemma SelectIsLeast(candidates: seq<Slot>, loads: map<Slot, nat>, saturated: Saturation)
    requires candidates != []
    ensures var chosen := SelectSlot(candidates, loads, saturated, None);
            var full := IsSaturated(saturated, loads, chosen);
            && (full <==> forall s :: s in candidates ==> IsSaturated(saturated, loads, s))
            && (forall s :: s in candidates && IsSaturated(saturated, loads, s) == full ==>
                  LoadAt(loads, chosen) <= LoadAt(loads, s))
  {
    var all := WithLoads(candidates, loads);
    var unsaturated := Filter(all, HasRoom(saturated));
    var pool := if unsaturated != [] then unsaturated else all;
    var sorted := SortBy(pool, NoLater);
    SortBySorted(pool, NoLater);
    SamePermutationElements(sorted, pool);
    assert sorted[0] in sorted && sorted[0] in all;
    forall s | s in candidates ensures Loaded(s, LoadAt(loads, s)) in all {
      var i :| 0 <= i < |candidates| && candidates[i] == s;
      assert all[i] in all;
    }
    forall c | c in pool ensures sorted[0].load <= c.load {
      var k :| 0 <= k < |sorted| && sorted[k] == c;
      if k > 0 { assert NoLater(sorted[0], sorted[k]); }
    }
    if unsaturated == [] {
      assert forall c :: c in all && !saturated(c) ==> c in unsaturated;
    }
  }

  // ----- The in-memory store -----

  class SlotStore {
    var tunnels: map<nat, Tunnel>

    constructor ()
      ensures tunnels == map[]
    {
      tunnels := map[];
    }

    /** The counting loop of `claimActiveTunnelSlot`. */
    method CountLoads(provider: int, candidates: set<Slot>, now: int) returns (loads: map<Slot, nat>)
      ensures forall s :: s in candidates ==> LoadAt(loads, s) == |OnSlot(tunnels, provider, s, now)|
    {
      loads := map[];
      var rest := tunnels.Keys;
      ghost var seen: map<nat, Tunnel> := map[];
      assert forall s :: OnSlot(seen, provider, s, now) == {};
      while rest != {}
        invariant rest <= tunnels.Keys && seen.Keys == tunnels.Keys - rest
        invariant forall id :: id in seen ==> seen[id] == tunnels[id]
        invariant forall s :: s in candidates ==> LoadAt(loads, s) == |OnSlot(seen, provider, s, now)|
        decreases rest
      {
        AnyId(rest);
        var id :| id in rest;
        var t := tunnels[id];
        forall s ensures |OnSlot(seen[id := t], provider, s, now)|
          == |OnSlot(seen, provider, s, now)| + (if Counts(t, provider, s, now) then 1 else 0) {
          CountOne(seen, id, t, provider, s, now);
        }
        if t.expiresAt > now && t.provider == provider && t.slot.Some? && t.slot.value in candidates {
          loads := loads[t.slot.value := LoadAt(loads, t.slot.value) + 1];
        }
        seen := seen[id := t];
        rest := rest - {id};
      }
      assert seen == tunnels;
    }

    /** One claim: nothing where the source throws for want of candidates. */
    method ClaimActiveTunnelSlot(
      id: nat, provider: int, candidates: seq<Slot>, saturated: Saturation, preferred: Option<Slot>, now: int)
      returns (claimed: Option<Slot>, activeConnections: nat)
      requires id !in tunnels
      modifies this
      ensures candidates == [] ==> claimed.None? && tunnels == old(tunnels)
      ensures candidates != [] ==>
        && claimed.Some? && claimed.value in candidates
        && tunnels == old(tunnels)[id := Tunnel(provider, claimed, now + 120_000)]
        && activeConnections == |OnSlot(old(tunnels), provider, claimed.value, now)| + 1
      ensures candidates != [] && preferred.Some? && preferred.value in candidates ==> claimed == preferred
      ensures candidates != [] && preferred.None? ==>
        LeastLoaded(old(tunnels), provider, candidates, saturated, claimed, now)
    {
      if candidates == [] { return None, 0; }
      var loads := CountLoads(provider, (set s | s in candidates), now);
      var slot := SelectSlot(candidates, loads, saturated, preferred);
      if preferred.None? {
        SelectIsLeast(candidates, loads, saturated);
        hide SelectSlot;
        assert LeastLoaded(tunnels, provider, candidates, saturated, Some(slot), now);
      }
      tunnels := tunnels[id := Tunnel(provider, Some(slot), now + TTL_MS)];
      claimed, activeConnections := Some(slot), LoadAt(loads, slot) + 1;
    }

    /** Claims without affinity at the given times, from an empty store and with nothing
        expiring in between. */
    method ClaimMany(provider: int, candidates: seq<Slot>, times: seq<int>, now: int)
      requires candidates != [] && Distinct(candidates)
      requires tunnels == map[]
      requires forall i :: 0 <= i < |times| ==> times[i] <= now < times[i] + TTL_MS
      requires forall i, j :: 0 <= i < j < |times| ==> times[i] <= times[j]
      modifies this
      ensures forall i :: 0 <= i < |candidates| ==>
        |times| / |candidates| <= |OnSlot(tunnels, provider, candidates[i], now)|
          <= (|times| + |candidates| - 1) / |candidates|
    {
      NothingClaimed(provider, candidates);
      for i := 0 to |times|
        invariant forall id :: id in tunnels ==> id < i && tunnels[id].expiresAt == times[id] + TTL_MS
        invariant Spread(tunnels, provider, candidates, i)
      {
        hide Spread, LeastLoaded, Load;
        ghost var before := tunnels;
        var claimed, _ := ClaimActiveTunnelSlot(i, provider, candidates, ByLoadAlone(), None, times[i]);
        LeastByLoad(before, provider, candidates, claimed, times[i]);
        SpreadStep(before, i, Tunnel(provider, claimed, times[i] + TTL_MS), provider, candidates, i);
      }
      AliveThroughout(tunnels, provider, now);
      forall i | 0 <= i < |candidates|
        ensures |times| / |candidates| <= |OnSlot(tunnels, provider, candidates[i], now)|
          <= (|times| + |candidates| - 1) / |candidates|
      {
        EvenIsQuotient(candidates, Load(tunnels, provider), |times|, i);
      }
    }
  }

  ghost predicate Full(tunnels: map<nat, Tunnel>, provider: int, saturated: Saturation, s: Slot, now: int) {
    saturated(Loaded(s, |OnSlot(tunnels, provider, s, now)|))
  }

  /** The claimed slot has room unless no candidate has, and is least loaded among the
      candidates like it. */
  ghost predicate LeastLoaded(
    tunnels: map<nat, Tunnel>, provider: int, candidates: seq<Slot>, saturated: Saturation, claimed: Option<Slot>,
    now: int)
  {
    && claimed.Some?
    && var chosen := claimed.value;
       var full := Full(tunnels, provider, saturated, chosen, now);
       && (full <==> forall s :: s in candidates ==> Full(tunnels, provider, saturated, s, now))
       && (forall s :: s in candidates && Full(tunnels, provider, saturated, s, now) == full ==>
             |OnSlot(tunnels, provider, chosen, now)| <= |OnSlot(tunnels, provider, s, now)|)
  }

  /** When load alone saturates, the slot is least loaded of all, above the soft limit as
      below. */
  lemma LeastByLoad(
    tunnels: map<nat, Tunnel>, provider: int, candidates: seq<Slot>, claimed: Option<Slot>, now: int)
    requires LeastLoaded(tunnels, provider, candidates, ByLoadAlone(), claimed, now)
    requires forall id :: id in tunnels ==> now < tunnels[id].expiresAt
    ensures forall s :: s in candidates ==> Load(tunnels, provider)(claimed.value) <= Load(tunnels, provider)(s)
  {
    hide OnSlot, Load;
    AliveThroughout(tunnels, provider, now);
    assert forall s :: s in candidates ==>
      |OnSlot(tunnels, provider, claimed.value, now)| <= |OnSlot(tunnels, provider, s, now)|;
  }

  lemma AnyId(ids: set<nat>)
    ensures ids == {} || exists id :: id in ids
  {
    if !exists id :: id in ids { assert ids == {}; }
  }

  predicate Counts(t: Tunnel, provider: int, slot: Slot, now: int) {
    t.expiresAt > now && t.provider == provider && t.slot == Some(slot)
  }

  lemma CountOne(seen: map<nat, Tunnel>, id: nat, t: Tunnel, provider: int, slot: Slot, now: int)
    requires id !in seen
    ensures |OnSlot(seen[id := t], provider, slot, now)|
      == |OnSlot(seen, provider, slot, now)| + (if Counts(t, provider, slot, now) then 1 else 0)
  {
    if Counts(t, provider, slot, now) {
      assert OnSlot(seen[id := t], provider, slot, now) == OnSlot(seen, provider, slot, now) + {id};
    } else {
      assert OnSlot(seen[id := t], provider, slot, now) == OnSlot(seen, provider, slot, now);
    }
  }

  // ----- Even loads -----

  ghost predicate Distinct(candidates: seq<Slot>) {
    forall i, j :: 0 <= i < j < |candidates| ==> candidates[i] != candidates[j]
  }

  /** The tunnels of a slot, expired or not. */
  ghost function EverOn(tunnels: map<nat, Tunnel>, provider: int, slot: Slot): set<nat> {
    set id | id in tunnels && tunnels[id].provider == provider && tunnels[id].slot == Some(slot)
  }

  ghost function Load(
    tunnels: map<nat, Tunnel>, provider: int): Slot -> nat { slot => |EverOn(tunnels, provider, slot)| }

  lemma AliveThroughout(tunnels: map<nat, Tunnel>, provider: int, now: int)
    requires forall id :: id in tunnels ==> now < tunnels[id].expiresAt
    ensures forall s :: |OnSlot(tunnels, provider, s, now)| == Load(tunnels, provider)(s)
  {
    forall s ensures OnSlot(tunnels, provider, s, now) == EverOn(tunnels, provider, s) { }
  }

  /** No slot is more than one ahead of another. */
  ghost predicate Even(candidates: seq<Slot>, load: Slot -> nat) {
    forall i, j :: 0 <= i < |candidates| && 0 <= j < |candidates| ==> load(candidates[i]) <= load(candidates[j]) + 1
  }

  ghost function Sum(candidates: seq<Slot>, load: Slot -> nat): nat {
    if candidates == [] then 0 else load(candidates[0]) + Sum(candidates[1..], load)
  }

  /** After `n` claims the loads are even and add up to `n`. */
  ghost predicate Spread(tunnels: map<nat, Tunnel>, provider: int, candidates: seq<Slot>, n: nat) {
    Even(candidates, Load(tunnels, provider)) && Sum(candidates, Load(tunnels, provider)) == n
  }

  lemma NothingClaimed(provider: int, candidates: seq<Slot>)
    ensures Spread(map[], provider, candidates, 0)
  {
    forall s ensures Load(map[], provider)(s) == 0 { assert EverOn(map[], provider, s) == {}; }
    SumOfZeros(candidates, Load(map[], provider));
  }

  lemma {:induction false} SumOfZeros(candidates: seq<Slot>, load: Slot -> nat)
    requires forall s :: load(s) == 0
    ensures Sum(candidates, load) == 0
  {
    if candidates != [] { SumOfZeros(candidates[1..], load); }
  }

  lemma {:induction false} SumStep(candidates: seq<Slot>, load: Slot -> nat, next: Slot -> nat, slot: Slot)
    requires Distinct(candidates)
    requires forall s :: next(s) == load(s) + (if s == slot then 1 else 0)
    ensures Sum(candidates, next) == Sum(candidates, load) + (if slot in candidates then 1 else 0)
  {
    if candidates != [] {
      assert candidates == [candidates[0]] + candidates[1..];
      SumStep(candidates[1..], load, next, slot);
      assert candidates[0] !in candidates[1..];
    }
  }

  lemma SpreadStep(tunnels: map<nat, Tunnel>, id: nat, t: Tunnel, provider: int, candidates: seq<Slot>, n: nat)
    requires Distinct(candidates) && id !in tunnels && t.provider == provider && t.slot.Some?
      && t.slot.value in candidates
    requires Spread(tunnels, provider, candidates, n)
    requires forall s :: s in candidates ==> Load(tunnels, provider)(t.slot.value) <= Load(tunnels, provider)(s)
    ensures Spread(tunnels[id := t], provider, candidates, n + 1)
  {
    var load, next := Load(tunnels, provider), Load(tunnels[id := t], provider);
    forall s ensures next(s)
      == load(s) + (if s == t.slot.value then 1 else 0) { EverOnStep(tunnels, id, t, provider, s); }
    hide Load;
    SumStep(candidates, load, next, t.slot.value);
    assert forall i :: 0 <= i < |candidates| ==> candidates[i] in candidates;
  }

  lemma EverOnStep(tunnels: map<nat, Tunnel>, id: nat, t: Tunnel, provider: int, s: Slot)
    requires id !in tunnels && t.provider == provider && t.slot.Some?
    ensures |EverOn(tunnels[id := t], provider, s)|
      == |EverOn(tunnels, provider, s)| + (if s == t.slot.value then 1 else 0)
  {
    if t.slot == Some(s) {
      assert EverOn(tunnels[id := t], provider, s) == EverOn(tunnels, provider, s) + {id};
    } else {
      assert EverOn(tunnels[id := t], provider, s) == EverOn(tunnels, provider, s);
    }
  }

  lemma Scale(m: nat, q: nat)
    ensures (m + 1) * q == m * q + q
  {
  }

  /** Loads between `lo` and `lo + 1`, one of them at `lo`. */
  lemma {:induction false} SumBounds(candidates: seq<Slot>, load: Slot -> nat, lo: nat, raised: nat)
    requires forall i :: 0 <= i < |candidates| ==> lo <= load(candidates[i]) <= lo + 1
    requires raised == |Raised(candidates, load, lo)|
    ensures Sum(candidates, load) == |candidates| * lo + raised && raised <= |candidates|
    ensures (exists i :: 0 <= i < |candidates| && load(candidates[i]) == lo) ==> raised < |candidates|
    ensures (exists i :: 0 <= i < |candidates| && load(candidates[i]) == lo + 1) ==> 0 < raised
  {
    if candidates != [] {
      var rest := candidates[1..];
      assert forall i :: 0 <= i < |rest| ==> rest[i] == candidates[i + 1];
      SumBounds(rest, load, lo, |Raised(rest, load, lo)|);
      Scale(|rest|, lo);
      if i :| 0 <= i < |candidates| && load(candidates[i]) == lo { if i > 0 { assert load(rest[i - 1]) == lo; } }
      if i :| 0 <= i < |candidates| && load(candidates[i]) == lo + 1 {
        if i > 0 { assert load(rest[i - 1]) == lo + 1; }
      }
    }
  }

  ghost function Raised(candidates: seq<Slot>, load: Slot -> nat, lo: nat): seq<Slot> {
    if candidates == [] then []
    else if load(candidates[0]) == lo + 1 then [candidates[0]] + Raised(candidates[1..], load, lo)
    else Raised(candidates[1..], load, lo)
  }

  lemma Quotients(n: nat, m: nat, q: nat, raised: nat)
    requires raised < m && n == m * q + raised
    ensures n / m == q && (n + m - 1) / m == if raised == 0 then q else q + 1
  {
    DivIs(n, m, q, raised);
    if raised == 0 { DivIs(n + m - 1, m, q, m - 1); } else { Scale(q, m); DivIs(n + m - 1, m, q + 1, raised - 1); }
  }

  lemma DivBounds(n: nat, m: nat)
    requires 0 < m
    ensures m * (n / m) <= n < m * (n / m) + m
  {
  }

  lemma Grows(m: nat, a: nat, b: nat)
    ensures a <= b ==> m * a <= m * b
  {
  }

  lemma Squeeze(m: nat, a: nat, b: nat)
    requires m * b < m * a + m
    ensures b <= a
  {
    Grows(m, a + 1, b);
  }

  lemma DivIs(n: nat, m: nat, q: nat, rest: nat)
    requires rest < m && n == m * q + rest
    ensures n / m == q
  {
    var d := n / m;
    DivBounds(n, m);
    Squeeze(m, d, q);
    Squeeze(m, q, d);
  }

  lemma Lowest(candidates: seq<Slot>, load: Slot -> nat) returns (least: nat)
    requires candidates != []
    ensures least < |candidates| && forall k :: 0 <= k < |candidates| ==> load(candidates[least]) <= load(candidates[k])
  {
    least := 0;
    for i := 1 to |candidates|
      invariant least < |candidates| && forall k :: 0 <= k < i ==> load(candidates[least]) <= load(candidates[k])
    {
      if load(candidates[i]) < load(candidates[least]) { least := i; }
    }
  }

  /** Even loads that add up to n are floor(n/m) or ceil(n/m) each. */
  lemma EvenIsQuotient(candidates: seq<Slot>, load: Slot -> nat, n: nat, i: nat)
    requires i < |candidates| && Even(candidates, load) && Sum(candidates, load) == n
    ensures n / |candidates| <= load(candidates[i]) <= (n + |candidates| - 1) / |candidates|
  {
    var least := Lowest(candidates, load);
    var q := load(candidates[least]);
    var raised := |Raised(candidates, load, q)|;
    SumBounds(candidates, load, q, raised);
    Quotients(n, |candidates|, q, raised);
  }
}
