/** The capacity circuit breaker of one provider candidate: its three transition
    functions, the in-memory store that applies them, and what holds over every run. */
module CapacityCircuit {
  import opened Options

  datatype Status = Closed | Open | HalfOpen
  datatype Reason = HardLimit | CapacityFailure | EstablishmentFailure | TimedOut

  datatype Circuit = Circuit(
    status: Status, consecutiveFailures: nat, openCount: nat, reason: Reason,
    cooldownUntil: Option<int>, probeExpiresAt: Option<int>, updatedAt: int, expiresAt: int)

  const RETENTION_MS := 86_400_000
  const FAILURE_THRESHOLD := 3
  const BASE_COOLDOWN_MS := 60_000
  const MAX_COOLDOWN_MS := 900_000
  const HALF_OPEN_LEASE_MS := 30_000

  function Pow2(n: nat): nat { if n == 0 then 1 else 2 * Pow2(n - 1) }

  /** The cooldown after the given number of openings. */
  function Cooldown(openCount: nat): int {
    var doubled := BASE_COOLDOWN_MS * Pow2(if openCount <= 1 then 0 else openCount - 1);
    if doubled < MAX_COOLDOWN_MS then doubled else MAX_COOLDOWN_MS
  }

  predicate Allows(state: Option<Circuit>, now: int) {
    if state.None? || state.value.status == Closed then true
    else if state.value.status == Open then state.value.cooldownUntil.Some? && state.value.cooldownUntil.value <= now
    else state.value.probeExpiresAt.Some? && state.value.probeExpiresAt.value <= now
  }

  datatype Claim = Claim(allowed: bool, state: Option<Circuit>)

  function ClaimProbe(state: Option<Circuit>, now: int): Claim {
    if state.None? || state.value.status == Closed then Claim(true, state)
    else if !Allows(state, now) then Claim(false, state)
    else Claim(true, Some(state.value.(
      status := HalfOpen, probeExpiresAt := Some(now + HALF_OPEN_LEASE_MS), updatedAt := now,
        expiresAt := now + RETENTION_MS)))
  }

  function RecordFailure(previous: Option<Circuit>, reason: Reason, now: int): Circuit {
    var failures := (if previous.Some? then previous.value.consecutiveFailures else 0) + 1;
    var shouldOpen := reason == HardLimit || (previous.Some? && previous.value.status == HalfOpen)
      || failures >= FAILURE_THRESHOLD;
    var openCount := (if previous.Some? then previous.value.openCount else 0) + (if shouldOpen then 1 else 0);
    var cooldown := Cooldown(openCount);
    Circuit(
      if shouldOpen then Open else Closed, failures, openCount, reason,
      if shouldOpen then Some(now + cooldown) else None, None, now,
      now + (if RETENTION_MS < cooldown then cooldown else RETENTION_MS))
  }

  // ----- Runs of one circuit -----

  /** What a reader sees: an expired state is dropped. */
  function Live(state: Option<Circuit>, now: int): Option<Circuit> {
    if state.Some? && state.value.expiresAt <= now then None else state
  }

  /** The operations of both stores. The in-memory store records a failure over an
      expired state, the DynamoDB store drops it first. */
  datatype Event =
    | Get(at: int)
    | TryClaim(at: int)
    | Fail(at: int, reason: Reason, dropsExpired: bool)
    | Reset(at: int)

  function Step(state: Option<Circuit>, event: Event): Option<Circuit> {
    match event
    case Get(now) => Live(state, now)
    case TryClaim(now) => ClaimProbe(Live(state, now), now).state
    case Fail(now, reason,
      dropsExpired) => Some(RecordFailure(if dropsExpired then Live(state, now) else state, reason, now))
    case Reset(_) => None
  }

  predicate Granted(state: Option<Circuit>, event: Event) {
    event.TryClaim? && ClaimProbe(Live(state, event.at), event.at).allowed
  }

  /** A grant that moves the circuit to half-open. */
  predicate IsProbe(state: Option<Circuit>, event: Event) {
    Granted(state, event) && Live(state, event.at).Some? && Live(state, event.at).value.status != Closed
  }

  ghost predicate IsRun(states: seq<Option<Circuit>>, events: seq<Event>) {
    && |states| == |events| + 1
    && states[0] == None
    && (forall k :: 0 <= k < |events| ==> states[k + 1] == Step(states[k], events[k]))
    && (forall i, j :: 0 <= i < j < |events| ==> events[i].at <= events[j].at)
  }

  lemma {:induction false} Pow2Grows(a: nat, b: nat)
    requires a <= b
    ensures 1 <= Pow2(a) <= Pow2(b)
  {
    if a < b { Pow2Grows(a, b - 1); } else if a > 0 { Pow2Grows(a - 1, a - 1); }
  }

  lemma CooldownBounds(a: nat, b: nat)
    requires a <= b
    ensures BASE_COOLDOWN_MS <= Cooldown(a) <= Cooldown(b) <= MAX_COOLDOWN_MS
  {
    Pow2Grows(if a <= 1 then 0 else a - 1, if b <= 1 then 0 else b - 1);
  }

  /** What holds of every stored state at every time of a run. */
  ghost predicate Consistent(state: Option<Circuit>, now: int) {
    state.Some? ==>
      var c := state.value;
      && 1 <= c.consecutiveFailures && c.updatedAt <= now
      && (c.cooldownUntil.Some? ==> c.cooldownUntil.value <= c.expiresAt)
      && (c.probeExpiresAt.Some? ==> c.probeExpiresAt.value <= c.expiresAt)
      && c.updatedAt + RETENTION_MS <= c.expiresAt
      && (c.status == Open ==>
           1 <= c.openCount && c.cooldownUntil == Some(c.updatedAt + Cooldown(c.openCount)) && c.probeExpiresAt.None?)
      && (c.status == HalfOpen ==> 1 <= c.openCount && c.probeExpiresAt == Some(c.updatedAt + HALF_OPEN_LEASE_MS))
      && (c.status == HalfOpen ==> c.cooldownUntil.Some? && c.cooldownUntil.value <= c.updatedAt)
      && (c.status == Closed ==> c.cooldownUntil.None? && c.probeExpiresAt.None?)
  }

  lemma StepConsistent(state: Option<Circuit>, event: Event, before: int)
    requires Consistent(state, before) && before <= event.at
    ensures Consistent(Step(state, event), event.at)
  {
    if event.Fail? {
      var previous := if event.dropsExpired then Live(state, event.at) else state;
      var opens := if previous.Some? then previous.value.openCount else 0;
      CooldownBounds(opens, opens + 1);
      CooldownBounds(0, opens);
    }
  }

  lemma {:induction false} RunConsistent(states: seq<Option<Circuit>>, events: seq<Event>, k: nat)
    requires IsRun(states, events) && k <= |events|
    ensures forall now :: (k > 0 ==> events[k - 1].at <= now) ==> Consistent(states[k], now)
  {
    if k > 0 {
      RunConsistent(states, events, k - 1);
      StepConsistent(states[k - 1], events[k - 1], events[k - 1].at);
    }
  }

  // ----- No grant while shut -----

  /** No claim succeeds before `until`, and failures keep it so. */
  ghost predicate Shut(state: Option<Circuit>, until: int) {
    && state.Some?
    && until <= state.value.expiresAt
    && (|| (state.value.status == Open && state.value.cooldownUntil.Some? && until <= state.value.cooldownUntil.value
            && 2 <= state.value.consecutiveFailures)
        || (state.value.status == HalfOpen && state.value.probeExpiresAt.Some?
             && until <= state.value.probeExpiresAt.value))
  }

  lemma ShutStep(state: Option<Circuit>, event: Event, before: int, until: int)
    requires Consistent(state, before) && before <= event.at
    requires Shut(state, until) && event.at < until && !event.Reset?
    ensures Shut(Step(state, event), until) && !Granted(state, event)
  {
    if event.Fail? {
      assert Live(state, event.at) == state;
      CooldownBounds(state.value.openCount, state.value.openCount + 1);
    }
  }

  lemma {:induction false} StaysShut(states: seq<Option<Circuit>>, events: seq<Event>, i: nat, j: nat, until: int)
    requires IsRun(states, events) && i <= j < |events|
    requires Shut(states[i], until) && events[j].at < until
    requires forall k :: i <= k <= j ==> !events[k].Reset?
    ensures Shut(states[j], until) && !Granted(states[j], events[j])
  {
    RunConsistent(states, events, j);
    if i < j { StaysShut(states, events, i, j - 1, until); ShutAgain(states, events, j, until); }
    ShutStep(states[j], events[j], events[j].at, until);
  }

  lemma ShutAgain(states: seq<Option<Circuit>>, events: seq<Event>, j: nat, until: int)
    requires IsRun(states, events) && 0 < j < |events|
    requires Shut(states[j - 1], until) && events[j].at < until && !events[j - 1].Reset?
    ensures Shut(states[j], until)
  {
    RunConsistent(states, events, j - 1);
    ShutStep(states[j - 1], events[j - 1], events[j - 1].at, until);
  }

  // ----- Events in any order -----

  /** Shut, with a failure recorded; no order of events is assumed. */
  ghost predicate ShutAnyOrder(state: Option<Circuit>, until: int) {
    Shut(state, until) && 1 <= state.value.consecutiveFailures
  }

  /** No reset, no expiry, and no failure whose own cooldown ends too early. */
  predicate KeepsShut(state: Option<Circuit>, event: Event, until: int) {
    && !event.Reset? && state.Some? && event.at < state.value.expiresAt
    && (event.Fail? ==> until <= event.at + Cooldown(state.value.openCount + 1))
  }

  /** With instants in any order, an event leaves the circuit shut if and only if it is one
      of these, and before `until` no claim is granted. */
  lemma StaysShutIff(state: Option<Circuit>, event: Event, until: int)
    requires ShutAnyOrder(state, until) && (event.Fail? ==> event.dropsExpired)
    ensures ShutAnyOrder(Step(state, event), until) <==> KeepsShut(state, event, until)
    ensures event.at < until ==> !Granted(state, event)
  {
    if event.Fail? {
      CooldownBounds(0, state.value.openCount + 1);
      CooldownBounds(0, 1);
    }
  }

  /** A granted probe excludes every other grant for the lease, unless the circuit is
      reset. */
  lemma ProbeIsExclusive(states: seq<Option<Circuit>>, events: seq<Event>, i: nat, j: nat)
    requires IsRun(states, events) && i < j < |events|
    requires IsProbe(states[i], events[i])
    requires events[j].at < events[i].at + 30_000
    requires forall k :: i < k <= j ==> !events[k].Reset?
    ensures !Granted(states[j], events[j])
  {
    StaysShut(states, events, i + 1, j, events[i].at + HALF_OPEN_LEASE_MS);
  }

  /** A circuit opened with at least two failures grants nothing before its cooldown
      ends, unless it is reset. */
  lemma CooldownHolds(states: seq<Option<Circuit>>, events: seq<Event>, i: nat, j: nat)
    requires IsRun(states, events) && i <= j < |events|
    requires states[i].Some? && states[i].value.status == Open && 2 <= states[i].value.consecutiveFailures
    requires states[i].value.cooldownUntil.Some? && events[j].at < states[i].value.cooldownUntil.value
    requires forall k :: i <= k <= j ==> !events[k].Reset?
    ensures !Granted(states[j], events[j])
  {
    RunConsistent(states, events, i);
    assert Consistent(states[i], events[j].at);
    StaysShut(states, events, i, j, states[i].value.cooldownUntil.value);
  }

  /** Expiry never drops a state whose cooldown or probe lease still runs. */
  lemma ExpiryIsSafe(states: seq<Option<Circuit>>, events: seq<Event>, k: nat)
    requires IsRun(states, events) && k < |events|
    requires states[k].Some? && Live(states[k], events[k].at).None?
    ensures states[k].value.cooldownUntil.Some? ==> states[k].value.cooldownUntil.value <= events[k].at
    ensures states[k].value.probeExpiresAt.Some? ==> states[k].value.probeExpiresAt.value <= events[k].at
  {
    RunConsistent(states, events, k);
    assert Consistent(states[k], events[k].at);
  }

  // ----- Cooldown lengths -----

  predicate Opens(event: Event, after: Option<Circuit>) {
    event.Fail? && after.Some? && after.value.status == Open
  }

  function OpenLength(after: Option<Circuit>): int {
    if after.Some? && after.value.cooldownUntil.Some?
    then after.value.cooldownUntil.value - after.value.updatedAt
    else 0
  }

  lemma {:induction false} OpenCountGrows(states: seq<Option<Circuit>>, events: seq<Event>, i: nat, j: nat)
    requires IsRun(states, events) && i <= j <= |events|
    requires forall k :: i <= k <= j ==> states[k].Some?
    requires forall k :: i <= k < j ==> Live(states[k], events[k].at).Some?
    ensures states[i].value.openCount <= states[j].value.openCount
  {
    if i < j { OpenCountGrows(states, events, i, j - 1); }
  }

  /** Every cooldown lasts between one and fifteen minutes, and without a reset or an
      expiry in between no later one is shorter. */
  lemma CooldownsNeverShrink(states: seq<Option<Circuit>>, events: seq<Event>, i: nat, j: nat)
    requires IsRun(states, events) && i <= j < |events|
    requires Opens(events[i], states[i + 1]) && Opens(events[j], states[j + 1])
    requires forall k :: i < k <= j ==> states[k].Some? && Live(states[k], events[k].at).Some?
    ensures 60_000 <= OpenLength(states[i + 1]) <= OpenLength(states[j + 1]) <= 900_000
  {
    RunConsistent(states, events, i + 1);
    RunConsistent(states, events, j + 1);
    assert Consistent(states[i + 1], events[i].at) && Consistent(states[j + 1], events[j].at);
    OpenCountGrows(states, events, i + 1, j + 1);
    CooldownBounds(states[i + 1].value.openCount, states[j + 1].value.openCount);
  }

  /** A further failure keeps an open circuit open exactly when it is a hard limit or
      at least two failures were recorded before it. */
  lemma OpenStaysOpen(state: Circuit, reason: Reason, now: int)
    requires state.status == Open
    ensures RecordFailure(Some(state), reason, now).status == Open
      <==> reason == HardLimit || 2 <= state.consecutiveFailures
  {
  }

  /** One hard limit opens a circuit that the next soft failure closes again. */
  lemma SoftFailureCloses()
    ensures var tripped := RecordFailure(None, HardLimit, 0);
            tripped.status == Open && RecordFailure(Some(tripped), TimedOut, 1).status == Closed
  {
  }

  /** From two failures on, a circuit that opened stays open or half-open until it is
      reset or expires. */
  lemma {:induction false} NeverClosesByFailure(states: seq<Option<Circuit>>, events: seq<Event>, i: nat, j: nat)
    requires IsRun(states, events) && i <= j <= |events|
    requires states[i].Some? && states[i].value.status != Closed && 2 <= states[i].value.consecutiveFailures
    requires forall k :: i <= k < j ==> !events[k].Reset? && Live(states[k], events[k].at) == states[k]
    ensures states[j].Some? && states[j].value.status != Closed && 2 <= states[j].value.consecutiveFailures
  {
    if i < j { NeverClosesByFailure(states, events, i, j - 1); }
  }

  // ----- What trips it, and for how long -----

  /** The event deletes the circuit, or finds it expired and starts it anew. */
  predicate StartsAnew(state: Option<Circuit>, event: Event) {
    || event.Reset?
    || (state.Some? && state.value.expiresAt <= event.at && !(event.Fail? && !event.dropsExpired))
  }

  /** The failures since the circuit was last deleted or expired. */
  ghost function FailuresSince(states: seq<Option<Circuit>>, events: seq<Event>, k: nat): nat
    requires |states| == |events| + 1 && k <= |events|
  {
    if k == 0 then 0
    else
      (if StartsAnew(states[k - 1], events[k - 1]) then 0 else FailuresSince(states, events, k - 1))
      + (if events[k - 1].Fail? then 1 else 0)
  }

  /** The failures among them that opened the circuit. */
  ghost function OpeningsSince(states: seq<Option<Circuit>>, events: seq<Event>, k: nat): nat
    requires |states| == |events| + 1 && k <= |events|
  {
    if k == 0 then 0
    else
      (if StartsAnew(states[k - 1], events[k - 1]) then 0 else OpeningsSince(states, events, k - 1))
      + (if events[k - 1].Fail? && states[k].Some? && states[k].value.status == Open then 1 else 0)
  }

  lemma {:induction false} CountsHold(states: seq<Option<Circuit>>, events: seq<Event>, k: nat)
    requires IsRun(states, events) && k <= |events|
    ensures states[k].None? <==> FailuresSince(states, events, k) == 0
    ensures states[k].Some? ==>
      && states[k].value.consecutiveFailures == FailuresSince(states, events, k)
      && states[k].value.openCount == OpeningsSince(states, events, k)
    ensures states[k].None? ==> OpeningsSince(states, events, k) == 0
  {
    if k > 0 {
      hide Cooldown;
      CountsHold(states, events, k - 1);
      RunConsistent(states, events, k - 1);
      assert states[k] == Step(states[k - 1], events[k - 1]);
      assert Consistent(states[k - 1], events[k - 1].at);
    }
  }

  /** In every run, a failure leaves the circuit open if and only if it is the third or a
      later one since the circuit was last deleted or expired, a hard limit, or the answer
      to a probe. */
  lemma TripsIff(states: seq<Option<Circuit>>, events: seq<Event>, k: nat)
    requires IsRun(states, events) && k < |events| && events[k].Fail?
    ensures states[k + 1].Some?
    ensures states[k + 1].value.status == Open
       <==> || FailuresSince(states, events, k + 1) >= 3
            || events[k].reason == HardLimit
            || (states[k].Some? && states[k].value.status == HalfOpen && !StartsAnew(states[k], events[k]))
    ensures states[k + 1].value.status != Open ==> states[k + 1].value.status == Closed
    ensures states[k + 1].value.reason == events[k].reason && states[k + 1].value.updatedAt == events[k].at
  {
    hide Cooldown;
    CountsHold(states, events, k);
    assert states[k + 1] == Step(states[k], events[k]);
  }

  lemma CooldownTable(openings: nat)
    requires openings > 0
    ensures Cooldown(openings)
         == if openings == 1 then 60_000 else if openings == 2 then 120_000 else if openings == 3 then 240_000
            else if openings == 4 then 480_000 else 900_000
  {
    assert Pow2(1) == 2 && Pow2(2) == 4 && Pow2(3) == 8 && Pow2(4) == 16;
    if openings > 4 { Pow2Grows(4, openings - 1); }
  }

  /** The first opening lasts a minute, each further one twice as long, up to fifteen. */
  lemma OpeningLength(states: seq<Option<Circuit>>, events: seq<Event>, k: nat)
    requires IsRun(states, events) && k < |events| && Opens(events[k], states[k + 1])
    ensures OpenLength(states[k + 1])
         == (var n := OpeningsSince(states, events, k + 1);
             if n == 1 then 60_000 else if n == 2 then 120_000 else if n == 3 then 240_000
             else if n == 4 then 480_000 else 900_000)
    ensures states[k + 1].value.cooldownUntil == Some(events[k].at + OpenLength(states[k + 1]))
    ensures OpeningsSince(states, events, k + 1) >= 1
  {
    hide Cooldown, Pow2;
    CountsHold(states, events, k + 1);
    RunConsistent(states, events, k + 1);
    assert Consistent(states[k + 1], events[k].at);
    assert states[k + 1] == Step(states[k], events[k]);
    CooldownTable(OpeningsSince(states, events, k + 1));
  }

  /** After the third failure nothing is granted before the cooldown of its opening ends,
      unless the circuit is reset. */
  lemma ThirdFailureShuts(states: seq<Option<Circuit>>, events: seq<Event>, k: nat, j: nat)
    requires IsRun(states, events) && k < j < |events| && events[k].Fail? && FailuresSince(states, events, k + 1) >= 3
    requires events[j].at < events[k].at + OpenLength(states[k + 1])
    requires forall i :: k < i <= j ==> !events[i].Reset?
    ensures OpenLength(states[k + 1]) >= 60_000 && !Granted(states[j], events[j])
  {
    hide Cooldown, Step;
    TripsIff(states, events, k);
    OpeningLength(states, events, k);
    CountsHold(states, events, k + 1);
    CooldownHolds(states, events, k + 1, j);
  }

  /** In every run a claim is granted if and only if the circuit is deleted, expired or
      closed, or open and past the cooldown of its last opening, or half-open and 30 s past
      its last probe. */
  lemma GrantedIff(states: seq<Option<Circuit>>, events: seq<Event>, k: nat)
    requires IsRun(states, events) && k < |events| && events[k].TryClaim?
    ensures Granted(states[k], events[k])
       <==> || states[k].None? || states[k].value.expiresAt <= events[k].at || states[k].value.status == Closed
            || (states[k].value.status == Open
                && states[k].value.updatedAt + Cooldown(OpeningsSince(states, events, k)) <= events[k].at)
            || (states[k].value.status == HalfOpen && states[k].value.updatedAt + 30_000 <= events[k].at)
  {
    hide Cooldown;
    CountsHold(states, events, k);
    RunConsistent(states, events, k);
    assert Consistent(states[k], events[k].at);
  }

  /** Every stored state expires a day after it was written. */
  lemma {:induction false} KeptForADay(states: seq<Option<Circuit>>, events: seq<Event>, k: nat)
    requires IsRun(states, events) && k <= |events| && states[k].Some?
    ensures states[k].value.expiresAt == states[k].value.updatedAt + 86_400_000
    ensures exists j :: 0 <= j < k && states[k].value.updatedAt == events[j].at
  {
    hide Cooldown;
    var state, event := states[k - 1], events[k - 1];
    assert states[k] == Step(state, event);
    if event.Fail? { CooldownBounds(0, states[k].value.openCount); }
    if state.Some? { KeptForADay(states, events, k - 1); }
    if states[k] != state { assert states[k].value.updatedAt == events[k - 1].at; }
  }

  /** A grant moves an open or half-open circuit to half-open for its instant, and leaves a
      closed one alone; a refusal changes nothing. */
  lemma ClaimMoves(states: seq<Option<Circuit>>, events: seq<Event>, k: nat)
    requires IsRun(states, events) && k < |events| && events[k].TryClaim?
    requires states[k].Some? && events[k].at < states[k].value.expiresAt
    ensures if Granted(states[k], events[k]) && states[k].value.status != Closed
            then states[k + 1].Some? && states[k + 1].value.status == HalfOpen
                 && states[k + 1].value.updatedAt == events[k].at
                 && states[k + 1].value.consecutiveFailures == states[k].value.consecutiveFailures
            else states[k + 1] == states[k]
  {
    assert states[k + 1] == Step(states[k], events[k]);
  }

  /** Soft failures trip a new circuit on the third: open from then on for a minute. */
  lemma ThreeFailuresTrip() returns (states: seq<Option<Circuit>>, events: seq<Event>)
    ensures IsRun(states, events) && |events| == 5
    ensures events[..3] == [Fail(0, CapacityFailure, true), Fail(1, CapacityFailure, true),
      Fail(2, CapacityFailure, true)]
    ensures states[2].Some? && states[2].value.status == Closed && states[3].Some? && states[3].value.status == Open
    ensures events[3] == TryClaim(60_001) && !Granted(states[3], events[3])
    ensures events[4] == TryClaim(60_002) && Granted(states[4], events[4])
  {
    events := [
      Fail(0, CapacityFailure, true), Fail(1, CapacityFailure, true), Fail(2, CapacityFailure, true),
      TryClaim(60_001), TryClaim(60_002)];
    CooldownTable(1);
    hide Cooldown;
    var one := RecordFailure(None, CapacityFailure, 0);
    var two := RecordFailure(Some(one), CapacityFailure, 1);
    var three := RecordFailure(Some(two), CapacityFailure, 2);
    var probe := ClaimProbe(Some(three), 60_002);
    states := [None, Some(one), Some(two), Some(three), Some(three), probe.state];
  }

  // ----- The in-memory store -----

  type Key = (string, string)

  function At(circuits: map<Key, Circuit>, key: Key): Option<Circuit> {
    if key in circuits then Some(circuits[key]) else None
  }

  class CircuitStore {
    var circuits: map<Key, Circuit>

    constructor ()
      ensures circuits == map[]
    {
      circuits := map[];
    }

    method GetCapacityCircuit(key: Key, now: int) returns (state: Option<Circuit>)
      modifies this
      ensures state == Step(At(old(circuits), key), Get(now)) && At(circuits, key) == state
      ensures forall other :: other != key ==> At(circuits, other) == At(old(circuits), other)
    {
      if key in circuits && circuits[key].expiresAt <= now {
        circuits := circuits - {key};
        return None;
      }
      state := if key in circuits then Some(circuits[key]) else None;
    }

    method ClaimCapacityCircuit(key: Key, now: int) returns (claim: Claim)
      modifies this
      ensures At(circuits, key) == Step(At(old(circuits), key), TryClaim(now)) && claim.state == At(circuits, key)
      ensures claim.allowed <==> Granted(At(old(circuits), key), TryClaim(now))
      ensures forall other :: other != key ==> At(circuits, other) == At(old(circuits), other)
    {
      var previous := GetCapacityCircuit(key, now);
      claim := ClaimProbe(previous, now);
      if claim.state.Some? && claim.state != previous {
        circuits := circuits[key := claim.state.value];
      }
    }

    method RecordCapacityCircuitFailure(key: Key, reason: Reason, now: int) returns (state: Circuit)
      modifies this
      ensures At(circuits, key) == Step(At(old(circuits), key), Fail(now, reason, false))
        && Some(state) == At(circuits, key)
      ensures forall other :: other != key ==> At(circuits, other) == At(old(circuits), other)
    {
      state := RecordFailure(if key in circuits then Some(circuits[key]) else None, reason, now);
      circuits := circuits[key := state];
    }

    method ResetCapacityCircuit(key: Key)
      modifies this
      ensures At(circuits, key) == None
      ensures forall other :: other != key ==> At(circuits, other) == At(old(circuits), other)
    {
      circuits := circuits - {key};
    }

    method DropExpired(now: int)
      modifies this
      ensures forall key :: At(circuits, key) == Live(At(old(circuits), key), now)
    {
      var rest := circuits.Keys;
      while rest != {}
        invariant rest <= circuits.Keys
        invariant forall key :: At(circuits, key) == if key in rest then At(old(circuits), key)
          else Live(At(old(circuits), key), now)
        decreases rest
      {
        var key :| key in rest;
        if circuits[key].expiresAt <= now { circuits := circuits - {key}; }
        rest := rest - {key};
      }
    }
  }
}
