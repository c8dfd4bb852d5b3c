/** The lease lock around a stored circuit, with any number of processes. Each step is
    one request to the shared table or one local step between requests. */
module CircuitLock {
  import opened Options
  import opened CapacityCircuit

  const LEASE_SECONDS := 10
  const WAIT_MS := 5_000

  datatype Lock = Lock(owner: nat, expiresAtSeconds: int)

  /** What a call does under the lock; `at` is the instant its caller passed. */
  datatype Work = CountFailure(reason: Reason, at: int) | ClaimCircuit(at: int)

  /** Where a call of `#withCapacityCircuitLock` stands. */
  datatype Phase =
    | Idle
    | Sampled(owner: nat, work: Work, deadline: int, sampledAt: int)
    | Waiting(owner: nat, work: Work, deadline: int)
    | Entered(owner: nat, work: Work, sampledAt: int)
    | HasRead(owner: nat, work: Work, sampledAt: int, previous: Option<Circuit>)
    | Finished(owner: nat, sampledAt: int)
  {
    /** Between the conditional put that took the lock and the request that frees it. */
    predicate InSection() { Entered? || HasRead? || Finished? }
  }

  datatype System = System(
    now: int, nextOwner: nat, lock: Option<Lock>, circuit: Option<Circuit>, phases: map<nat, Phase>, recorded: nat)

  function PhaseOf(s: System, p: nat): Phase { if p in s.phases then s.phases[p] else Idle }

  function Move(s: System, p: nat, phase: Phase): System { s.(phases := s.phases[p := phase]) }

  datatype Action =
    | Tick(ms: nat)
    | Start(p: nat, work: Work)
    | Put(p: nat)
    | Again(p: nat)
    | ReadCircuit(p: nat)
    | Save(p: nat)
    | GiveUp(p: nat)
    | Release(p: nat)
    | Abandon(p: nat)
    | DropUnlocked

  function Seconds(t: int): int { t / 1000 }

  /** The condition of the conditional put. */
  predicate Free(lock: Option<Lock>, nowSeconds: int) {
    lock.None? || lock.value.expiresAtSeconds < nowSeconds
  }

  /** Whether the work saves anything over the state it read. */
  predicate Writes(work: Work, previous: Option<Circuit>) {
    match work
    case CountFailure(_, _) => true
    case ClaimCircuit(at) =>
      var claim := ClaimProbe(previous, at);
      claim.allowed && claim.state.Some? && claim.state != previous
  }

  function SaveWork(s: System, work: Work, previous: Option<Circuit>): System {
    match work
    case CountFailure(reason, at) => s.(circuit := Some(RecordFailure(previous, reason, at)),
      recorded := s.recorded + 1)
    case ClaimCircuit(at) => if Writes(work, previous) then s.(circuit := ClaimProbe(previous, at).state) else s
  }

  /** A read inside the section deletes a state it finds expired, and the count of
      recorded failures starts again. */
  function DropExpired(s: System, at: int): System {
    if s.circuit.Some? && Live(s.circuit, at).None? then s.(circuit := None, recorded := 0) else s
  }

  /** The request that frees the lock deletes it only under the caller's owner. */
  function Unlock(s: System, owner: nat): System {
    if s.lock.Some? && s.lock.value.owner == owner then s.(lock := None) else s
  }

  /** One step. `DropUnlocked` is the delete that a reset, or a reader outside the
      section that saw an expired state, sends without the lock. `Abandon` is a release
      whose request fails, which leaves the lock to expire. A step that does not apply
      leaves the system as it is. */
  function Next(s: System, a: Action): System {
    match a
    case Tick(ms) => s.(now := s.now + ms)
    case Start(p, work) =>
      if PhaseOf(s, p).Idle?
        then Move(s.(nextOwner := s.nextOwner + 1), p, Sampled(s.nextOwner, work, s.now + WAIT_MS, s.now)) else s
    case Put(p) =>
      (match PhaseOf(s, p)
       case Sampled(owner, work, deadline, sampledAt) =>
         if Free(s.lock, Seconds(sampledAt))
         then Move(s.(lock := Some(Lock(owner, Seconds(sampledAt) + LEASE_SECONDS))), p,
           Entered(owner, work, sampledAt))
         else if s.now >= deadline then Move(s, p, Idle)
         else Move(s, p, Waiting(owner, work, deadline))
       case _ => s)
    case Again(p) =>
      var phase := PhaseOf(s, p);
      if phase.Waiting? then Move(s, p, Sampled(phase.owner, phase.work, phase.deadline, s.now)) else s
    case ReadCircuit(p) =>
      var phase := PhaseOf(s, p);
      if phase.Entered?
      then Move(DropExpired(s, phase.work.at), p,
        HasRead(phase.owner, phase.work, phase.sampledAt, Live(s.circuit, phase.work.at)))
      else s
    case Save(p) =>
      var phase := PhaseOf(s, p);
      if phase.HasRead?
      then Move(SaveWork(s, phase.work, phase.previous), p, Finished(phase.owner, phase.sampledAt))
      else s
    case GiveUp(p) =>
      var phase := PhaseOf(s, p);
      if phase.Entered? || phase.HasRead? then Move(s, p, Finished(phase.owner, phase.sampledAt)) else s
    case Release(p) =>
      var phase := PhaseOf(s, p);
      if phase.Finished? then Move(Unlock(s, phase.owner), p, Idle) else s
    case Abandon(p) => if PhaseOf(s, p).Finished? then Move(s, p, Idle) else s
    case DropUnlocked => s.(circuit := None, recorded := 0)
  }

  /** No section outlives its lease, in the whole seconds that the lock is kept in. */
  ghost predicate OnTime(s: System) {
    forall p :: p in s.phases && s.phases[p].InSection() ==>
      Seconds(s.now) <= Seconds(s.phases[p].sampledAt) + LEASE_SECONDS
  }

  ghost predicate Initial(s: System) {
    s.lock.None? && s.circuit.None? && s.phases == map[] && s.recorded == 0
  }

  ghost predicate IsRun(states: seq<System>, actions: seq<Action>) {
    && |states| == |actions| + 1
    && Initial(states[0])
    && (forall k :: 0 <= k < |actions| ==> states[k + 1] == Next(states[k], actions[k]))
  }

  // ----- The invariant -----

  ghost predicate OwnersDistinct(s: System) {
    && (forall p :: p in s.phases && !s.phases[p].Idle? ==> s.phases[p].owner < s.nextOwner)
    && (forall p, q :: p in s.phases && q in s.phases && p != q && !s.phases[p].Idle? && !s.phases[q].Idle? ==>
          s.phases[p].owner != s.phases[q].owner)
  }

  ghost predicate SamplesPast(s: System) {
    forall p :: p in s.phases && s.phases[p].Sampled? ==> s.phases[p].sampledAt <= s.now
  }

  /** Whoever is in the section holds the lock, under its own owner and lease. */
  ghost predicate SectionLocked(s: System) {
    forall p :: p in s.phases && s.phases[p].InSection() ==>
      s.lock == Some(Lock(s.phases[p].owner, Seconds(s.phases[p].sampledAt) + LEASE_SECONDS))
  }

  /** What was read is live and still stored, unless it was deleted and nothing will be
      written over it. */
  ghost predicate ReadsCurrent(s: System) {
    forall p :: p in s.phases && s.phases[p].HasRead? ==>
      var HasRead(_, work, _, previous) := s.phases[p];
      && Live(previous, work.at) == previous
      && (previous == s.circuit || (s.circuit.None? && !Writes(work, previous)))
  }

  function StoredFailures(s: System): nat { if s.circuit.Some? then s.circuit.value.consecutiveFailures else 0 }

  ghost predicate LockInv(s: System) {
    OwnersDistinct(s) && SamplesPast(s) && SectionLocked(s)
  }

  ghost predicate CountInv(s: System) {
    && ReadsCurrent(s) && StoredFailures(s) == s.recorded
    && (s.circuit.Some? ==> 1 <= StoredFailures(s))
  }

  lemma AtMostOne(s: System, p: nat, q: nat)
    requires OwnersDistinct(s) && SectionLocked(s)
    requires PhaseOf(s, p).InSection() && PhaseOf(s, q).InSection()
    ensures p == q
  {
  }

  /** No other process finds the lock free while a section is on time. */
  lemma NotFreeWhileHeld(s: System, p: nat, sampledAt: int)
    requires SectionLocked(s) && OnTime(s) && PhaseOf(s, p).InSection() && sampledAt <= s.now
    ensures !Free(s.lock, Seconds(sampledAt))
  {
  }

  lemma PutKeeps(s: System, p: nat)
    requires LockInv(s) && OnTime(s)
    ensures LockInv(Next(s, Put(p)))
  {
    var phase := PhaseOf(s, p);
    if phase.Sampled? {
      hide Free, Seconds;
      forall q | q in s.phases && s.phases[q].InSection() ensures !Free(s.lock, Seconds(phase.sampledAt)) {
        NotFreeWhileHeld(s, q, phase.sampledAt);
      }
    }
  }

  lemma ReleaseKeeps(s: System, p: nat)
    requires LockInv(s)
    ensures LockInv(Next(s, Release(p)))
  {
    if PhaseOf(s, p).Finished? {
      forall q | q in s.phases && s.phases[q].InSection() ensures q == p { AtMostOne(s, p, q); }
    }
  }

  /** A step inside the section, under the same owner and lease. */
  lemma SectionMove(s: System, t: System, p: nat, phase: Phase)
    requires LockInv(s) && PhaseOf(s, p).InSection()
    requires phase.InSection() && phase.owner == PhaseOf(s, p).owner && phase.sampledAt == PhaseOf(s, p).sampledAt
    requires t.lock == s.lock && t.now == s.now && t.nextOwner == s.nextOwner && t.phases == s.phases[p := phase]
    ensures LockInv(t)
  {
    hide Seconds;
  }

  lemma SectionKeeps(s: System, a: Action)
    requires LockInv(s) && (a.ReadCircuit? || a.Save? || a.GiveUp?)
    ensures LockInv(Next(s, a))
  {
    hide Live, RecordFailure, ClaimProbe, LockInv;
    var phase, next := PhaseOf(s, a.p), Next(s, a);
    if next != s { SectionMove(s, next, a.p, PhaseOf(next, a.p)); }
  }

  lemma OutsideKeeps(s: System, a: Action)
    requires LockInv(s) && (a.Tick? || a.Start? || a.Again? || a.Abandon? || a.DropUnlocked?)
    ensures LockInv(Next(s, a))
  {
    hide Seconds;
  }

  lemma LockStep(s: System, a: Action)
    requires LockInv(s) && OnTime(s)
    ensures LockInv(Next(s, a))
  {
    hide LockInv, Next, OnTime;
    match a
    case Put(p) => PutKeeps(s, p);
    case Release(p) => ReleaseKeeps(s, p);
    case Tick(_) => OutsideKeeps(s, a);
    case Start(_, _) => OutsideKeeps(s, a);
    case Again(_) => OutsideKeeps(s, a);
    case Abandon(_) => OutsideKeeps(s, a);
    case DropUnlocked => OutsideKeeps(s, a);
    case _ => SectionKeeps(s, a);
  }

  lemma {:induction false} LockHolds(states: seq<System>, actions: seq<Action>, k: nat)
    requires IsRun(states, actions) && k <= |actions|
    requires forall i :: 0 <= i < k ==> OnTime(states[i])
    ensures LockInv(states[k])
  {
    hide OnTime, Next;
    if k > 0 {
      LockHolds(states, actions, k - 1);
      LockStep(states[k - 1], actions[k - 1]);
    }
  }

  /** A process between its read and its save that will write over a stored state: a
      delete outside the lock would not last. */
  predicate WillWrite(s: System, p: nat) {
    s.circuit.Some? && PhaseOf(s, p).HasRead? && Writes(PhaseOf(s, p).work, PhaseOf(s, p).previous)
  }

  ghost predicate Endangered(s: System) { exists p :: WillWrite(s, p) }

  lemma FailuresAfterSave(s: System, work: Work, previous: Option<Circuit>)
    requires previous == s.circuit || !Writes(work, previous)
    requires s.circuit.Some? ==> 1 <= StoredFailures(s)
    ensures StoredFailures(SaveWork(s, work, previous)) == StoredFailures(s) + (if work.CountFailure? then 1 else 0)
    ensures SaveWork(s, work, previous).recorded == s.recorded + (if work.CountFailure? then 1 else 0)
    ensures SaveWork(s, work, previous).phases == s.phases
    ensures SaveWork(s, work, previous).circuit.Some? ==> 1 <= StoredFailures(SaveWork(s, work, previous))
  {
  }

  lemma SaveCounts(s: System, p: nat)
    requires LockInv(s) && CountInv(s)
    ensures CountInv(Next(s, Save(p)))
  {
    hide Seconds, Live, Writes, SaveWork, StoredFailures;
    var phase := PhaseOf(s, p);
    if phase.HasRead? {
      FailuresAfterSave(s, phase.work, phase.previous);
      forall q | q in s.phases && s.phases[q].InSection() ensures q == p { AtMostOne(s, p, q); }
      SameCount(SaveWork(s, phase.work, phase.previous), Next(s, Save(p)));
    }
  }

  lemma SameCount(s: System, t: System)
    requires s.circuit == t.circuit
    ensures StoredFailures(s) == StoredFailures(t)
  {
  }

  lemma ReadCounts(s: System, p: nat)
    requires LockInv(s) && CountInv(s)
    ensures CountInv(Next(s, ReadCircuit(p)))
  {
    hide Seconds, Writes;
    if PhaseOf(s, p).Entered? {
      forall q | q in s.phases && s.phases[q].InSection() ensures q == p { AtMostOne(s, p, q); }
    }
  }

  /** A delete outside the lock keeps the count right if and only if nobody is about to
      write over the state. */
  lemma DropKeepsCount(s: System)
    requires CountInv(s)
    ensures CountInv(Next(s, DropUnlocked)) <==> !Endangered(s)
  {
    hide Live, Writes;
    var after := Next(s, DropUnlocked);
    if Endangered(s) {
      var p :| WillWrite(s, p);
      assert p in s.phases && PhaseOf(after, p) == PhaseOf(s, p);
    } else {
      forall p | p in s.phases && s.phases[p].HasRead? ensures !WillWrite(s, p) {
        assert !WillWrite(s, p);
      }
    }
  }

  lemma CountStep(s: System, a: Action)
    requires LockInv(s) && CountInv(s) && (a.DropUnlocked? ==> !Endangered(s))
    ensures CountInv(Next(s, a))
  {
    hide Seconds, Free, Live, Writes;
    match a
    case Save(p) => SaveCounts(s, p);
    case ReadCircuit(p) => ReadCounts(s, p);
    case DropUnlocked => DropKeepsCount(s);
    case _ =>
  }

  /** Unlocked deletes come only when nobody is about to write over the state. */
  ghost predicate Careful(states: seq<System>, actions: seq<Action>, k: nat)
    requires |states| == |actions| + 1 && k <= |actions|
  {
    forall i :: 0 <= i < k ==> OnTime(states[i]) && (actions[i].DropUnlocked? ==> !Endangered(states[i]))
  }

  lemma {:induction false} CountHolds(states: seq<System>, actions: seq<Action>, k: nat)
    requires IsRun(states, actions) && k <= |actions| && Careful(states, actions, k)
    ensures CountInv(states[k])
  {
    hide OnTime, Next, Endangered;
    if k > 0 {
      CountHolds(states, actions, k - 1);
      LockHolds(states, actions, k - 1);
      CountStep(states[k - 1], actions[k - 1]);
    }
  }

  // ----- Results -----

  /** In every interleaving whose sections end within the lease, no two processes are
      in the section of one circuit at once. */
  lemma MutualExclusion(states: seq<System>, actions: seq<Action>, k: nat, p: nat, q: nat)
    requires IsRun(states, actions) && k <= |actions|
    requires forall i :: 0 <= i < k ==> OnTime(states[i])
    requires PhaseOf(states[k], p).InSection() && PhaseOf(states[k], q).InSection()
    ensures p == q
  {
    LockHolds(states, actions, k);
    AtMostOne(states[k], p, q);
  }

  predicate SavesFailure(s: System, a: Action) {
    a.Save? && PhaseOf(s, a.p).HasRead? && PhaseOf(s, a.p).work.CountFailure?
  }

  predicate Drops(s: System, a: Action) {
    || a.DropUnlocked?
    || (a.ReadCircuit? && PhaseOf(s, a.p).Entered? && s.circuit.Some? && Live(s.circuit, PhaseOf(s, a.p).work.at).None?)
  }

  /** The failures saved among the first `k` steps since the state was last deleted. */
  ghost function FailuresSaved(states: seq<System>, actions: seq<Action>, k: nat): nat
    requires |states| == |actions| + 1 && k <= |actions|
  {
    if k == 0 || Drops(states[k - 1], actions[k - 1]) then 0
    else FailuresSaved(states, actions, k - 1) + (if SavesFailure(states[k - 1], actions[k - 1]) then 1 else 0)
  }

  lemma {:induction false} RecordedCounts(states: seq<System>, actions: seq<Action>, k: nat)
    requires IsRun(states, actions) && k <= |actions|
    ensures states[k].recorded == FailuresSaved(states, actions, k)
  {
    if k > 0 {
      RecordedCounts(states, actions, k - 1);
      assert states[k] == Next(states[k - 1], actions[k - 1]);
    }
  }

  /** After n failures recorded since the last delete the stored count is n: no update is
      lost, whatever claims and deletes come between, as long as nobody is about to write
      over a state that is deleted outside the lock. */
  lemma NoLostFailure(states: seq<System>, actions: seq<Action>, k: nat)
    requires IsRun(states, actions) && k <= |actions| && Careful(states, actions, k)
    ensures StoredFailures(states[k]) == FailuresSaved(states, actions, k)
  {
    CountHolds(states, actions, k);
    RecordedCounts(states, actions, k);
  }

  /** The exact condition: after such a run, a delete outside the lock can leave a wrong
      count if and only if somebody is about to write over the state. */
  lemma UnlockedDropIsUndone(states: seq<System>, actions: seq<Action>, k: nat)
    requires IsRun(states, actions) && k <= |actions| && Careful(states, actions, k) && OnTime(states[k])
    ensures Endangered(states[k])
       <==> exists p :: Miscounts(Next(Next(states[k], DropUnlocked), Save(p)))
  {
    hide Next, CountInv, LockInv, OnTime;
    var s := states[k];
    LockHolds(states, actions, k);
    CountHolds(states, actions, k);
    if Endangered(s) {
      var p :| WillWrite(s, p);
      UndoneBy(s, p);
    } else {
      var after := Next(s, DropUnlocked);
      DropKeepsCount(s);
      LockStep(s, DropUnlocked);
      forall p ensures !Miscounts(Next(after, Save(p))) {
        SaveCounts(after, p);
        CountedRight(Next(after, Save(p)));
      }
    }
  }

  /** The stored count is not the number of failures recorded since the last delete. */
  predicate Miscounts(s: System) { StoredFailures(s) != s.recorded }

  lemma CountedRight(s: System)
    requires CountInv(s)
    ensures !Miscounts(s)
  {
  }

  lemma UndoneBy(s: System, p: nat)
    requires CountInv(s) && WillWrite(s, p)
    ensures Miscounts(Next(Next(s, DropUnlocked), Save(p)))
  {
    hide Live, Cooldown;
    assert p in s.phases;
  }

  /** A run in which it happens: a second failure is saved over a state that was deleted
      after it had been read, and the count is two where one failure followed the delete. */
  lemma UndoneDropRun() returns (states: seq<System>, actions: seq<Action>)
    ensures IsRun(states, actions) && |actions| == 10 && actions[8].DropUnlocked?
    ensures forall k :: 0 <= k <= 10 ==> OnTime(states[k])
    ensures StoredFailures(states[10]) == 2 && FailuresSaved(states, actions, 10) == 1
  {
    var fail := CountFailure(TimedOut, 0);
    actions := [
      Start(0, fail), Put(0), ReadCircuit(0), Save(0), Release(0),
      Start(1, fail), Put(1), ReadCircuit(1), DropUnlocked, Save(1)];
    var once := RecordFailure(None, TimedOut, 0);
    var twice := RecordFailure(Some(once), TimedOut, 0);
    assert Live(Some(once), 0) == Some(once) && once.consecutiveFailures == 1 && twice.consecutiveFailures == 2;
    hide RecordFailure, Live;
    var held, again := Some(Lock(0, LEASE_SECONDS)), Some(Lock(1, LEASE_SECONDS));
    states := [
      System(0, 0, None, None, map[], 0),
      System(0, 1, None, None, map[0 := Sampled(0, fail, WAIT_MS, 0)], 0),
      System(0, 1, held, None, map[0 := Entered(0, fail, 0)], 0),
      System(0, 1, held, None, map[0 := HasRead(0, fail, 0, None)], 0),
      System(0, 1, held, Some(once), map[0 := Finished(0, 0)], 1),
      System(0, 1, None, Some(once), map[0 := Idle], 1),
      System(0, 2, None, Some(once), map[0 := Idle, 1 := Sampled(1, fail, WAIT_MS, 0)], 1),
      System(0, 2, again, Some(once), map[0 := Idle, 1 := Entered(1, fail, 0)], 1),
      System(0, 2, again, Some(once), map[0 := Idle, 1 := HasRead(1, fail, 0, Some(once))], 1),
      System(0, 2, again, None, map[0 := Idle, 1 := HasRead(1, fail, 0, Some(once))], 0),
      System(0, 2, again, Some(twice), map[0 := Idle, 1 := Finished(1, 0)], 1)];
    assert FailuresSaved(states, actions, 9) == 0;
  }

  // ----- The circuit under the lock -----

  function EventOf(work: Work): Event {
    match work
    case CountFailure(reason, at) => Fail(at, reason, true)
    case ClaimCircuit(at) => TryClaim(at)
  }

  /** The circuit event that a step carries out, if any. */
  function CircuitEvent(s: System, a: Action): Option<Event> {
    match a
    case ReadCircuit(p) => if PhaseOf(s, p).Entered? then Some(Get(PhaseOf(s, p).work.at)) else None
    case Save(p) => if PhaseOf(s, p).HasRead? then Some(EventOf(PhaseOf(s, p).work)) else None
    case DropUnlocked => Some(Reset(s.now))
    case _ => None
  }

  /** The call that saves is told it may use the candidate. */
  predicate Grants(s: System, a: Action) {
    a.Save? && PhaseOf(s, a.p).HasRead? && PhaseOf(s, a.p).work.ClaimCircuit?
    && ClaimProbe(PhaseOf(s, a.p).previous, PhaseOf(s, a.p).work.at).allowed
  }

  lemma StepFollows(s: System, a: Action)
    requires CountInv(s)
    ensures var event := CircuitEvent(s, a);
            Next(s, a).circuit == if event.Some? then CapacityCircuit.Step(s.circuit, event.value) else s.circuit
    ensures Grants(s, a) ==> CircuitEvent(s, a).Some? && Granted(s.circuit, CircuitEvent(s, a).value)
  {
    hide Seconds, RecordFailure;
    if a.Save? && PhaseOf(s, a.p).HasRead? { assert a.p in s.phases; }
  }

  /** Section by section the stored circuit takes the steps of the circuit alone, and a
      call is granted only what the circuit grants. */
  lemma CircuitFollows(states: seq<System>, actions: seq<Action>, k: nat)
    requires IsRun(states, actions) && k < |actions| && Careful(states, actions, k)
    ensures var event := CircuitEvent(states[k], actions[k]);
            states[k + 1].circuit == if event.Some? then CapacityCircuit.Step(states[k].circuit, event.value)
              else states[k].circuit
    ensures Grants(states[k], actions[k]) ==>
      CircuitEvent(states[k], actions[k]).Some? && Granted(states[k].circuit, CircuitEvent(states[k], actions[k]).value)
  {
    hide Careful, CountInv, CircuitEvent, Grants, Granted, CapacityCircuit.Step;
    CountHolds(states, actions, k);
    StepFollows(states[k], actions[k]);
    assert states[k + 1] == Next(states[k], actions[k]);
  }

  /** The step leaves a circuit that is shut until that instant shut. The instants of calls
      are taken before the lock, so they come in any order. */
  predicate Outlasted(s: System, a: Action, until: int) {
    CircuitEvent(s, a).Some? ==> KeepsShut(s.circuit, CircuitEvent(s, a).value, until)
  }

  /** One step of a run keeps a circuit shut if and only if it is outlasted. */
  lemma OutlastedIff(states: seq<System>, actions: seq<Action>, k: nat, until: int)
    requires IsRun(states, actions) && k < |actions| && Careful(states, actions, k)
    requires ShutAnyOrder(states[k].circuit, until)
    ensures ShutAnyOrder(states[k + 1].circuit, until) <==> Outlasted(states[k], actions[k], until)
  {
    hide Careful, Grants, Granted, CapacityCircuit.Step, Next, ShutAnyOrder, KeepsShut;
    CircuitFollows(states, actions, k);
    var event := CircuitEvent(states[k], actions[k]);
    if event.Some? { StaysShutIff(states[k].circuit, event.value, until); }
  }

  lemma {:induction false} StaysShutUnderLock(states: seq<System>, actions: seq<Action>, i: nat, j: nat, until: int)
    requires IsRun(states, actions) && i <= j <= |actions| && Careful(states, actions, j)
    requires ShutAnyOrder(states[i].circuit, until)
    requires forall k :: i <= k < j ==> Outlasted(states[k], actions[k], until)
    ensures ShutAnyOrder(states[j].circuit, until)
  {
    hide Careful, CircuitEvent, Next, ShutAnyOrder, Outlasted;
    if i < j {
      CarefulBefore(states, actions, j - 1, j);
      StaysShutUnderLock(states, actions, i, j - 1, until);
      OutlastedIff(states, actions, j - 1, until);
    }
  }

  lemma CarefulBefore(states: seq<System>, actions: seq<Action>, i: nat, j: nat)
    requires |states| == |actions| + 1 && i <= j <= |actions| && Careful(states, actions, j)
    ensures Careful(states, actions, i)
  {
  }

  /** A probe granted under the lock excludes every other grant for its lease, whatever
      order the calls' instants come in, as long as every step in between is outlasted. */
  lemma LockedProbeIsExclusive(states: seq<System>, actions: seq<Action>, i: nat, j: nat)
    requires IsRun(states, actions) && i < j < |actions| && Careful(states, actions, j)
    requires Grants(states[i], actions[i]) && states[i].circuit.Some? && states[i].circuit.value.status != Closed
    requires actions[j].Save? && PhaseOf(states[j], actions[j].p).HasRead?
    requires PhaseOf(states[j], actions[j].p).work.at < PhaseOf(states[i], actions[i].p).work.at + 30_000
    requires var until := PhaseOf(states[i], actions[i].p).work.at + 30_000;
             forall k :: i < k < j ==> Outlasted(states[k], actions[k], until)
    ensures !Grants(states[j], actions[j])
  {
    var until := PhaseOf(states[i], actions[i].p).work.at + HALF_OPEN_LEASE_MS;
    CarefulBefore(states, actions, i, j);
    CountHolds(states, actions, i);
    ProbeShuts(states[i], actions[i]);
    assert states[i + 1] == Next(states[i], actions[i]);
    StaysShutUnderLock(states, actions, i + 1, j, until);
    CircuitFollows(states, actions, j);
    StaysShutIff(states[j].circuit, CircuitEvent(states[j], actions[j]).value, until);
  }

  lemma ProbeShuts(s: System, a: Action)
    requires CountInv(s) && Grants(s, a) && s.circuit.Some? && s.circuit.value.status != Closed
    ensures ShutAnyOrder(Next(s, a).circuit, PhaseOf(s, a.p).work.at + HALF_OPEN_LEASE_MS)
  {
    hide Seconds;
    assert a.p in s.phases;
  }

  /** A release never removes another owner's lock, on time or late. */
  lemma ReleaseIsOwn(s: System, p: nat)
    requires s.lock.Some? && PhaseOf(s, p).Finished?
    ensures Next(s, Release(p)).lock == if s.lock.value.owner == PhaseOf(s, p).owner then None else s.lock
  {
  }

  /** ... and on time it removes the caller's own. */
  lemma ReleaseFrees(states: seq<System>, actions: seq<Action>, k: nat, p: nat)
    requires IsRun(states, actions) && k <= |actions|
    requires forall i :: 0 <= i < k ==> OnTime(states[i])
    requires PhaseOf(states[k], p).Finished?
    ensures Next(states[k], Release(p)).lock.None?
  {
    LockHolds(states, actions, k);
  }

  /** The bound is exact: at the first late moment, and only then, a newcomer enters
      beside a section that has not ended. */
  lemma LateSectionIsOverrun(states: seq<System>, actions: seq<Action>, k: nat, p: nat, q: nat, work: Work)
    requires IsRun(states, actions) && k <= |actions|
    requires forall i :: 0 <= i < k ==> OnTime(states[i])
    requires PhaseOf(states[k], p).InSection() && PhaseOf(states[k], q).Idle?
    ensures var after := Next(Next(states[k], Start(q, work)), Put(q));
            p != q && PhaseOf(after, p).InSection() && (PhaseOf(after, q).InSection() <==> !OnTime(states[k]))
  {
    var s := states[k];
    LockHolds(states, actions, k);
    assert p in s.phases;
    forall r | r in s.phases && s.phases[r].InSection() ensures r == p { AtMostOne(s, p, r); }
  }

  /** A run in which two processes stand in one section. */
  lemma OverrunRun() returns (states: seq<System>, actions: seq<Action>)
    ensures IsRun(states, actions) && |actions| == 5
    ensures PhaseOf(states[5], 0).InSection() && PhaseOf(states[5], 1).InSection()
  {
    var work := ClaimCircuit(0);
    actions := [Start(0, work), Put(0), Tick(11_000), Start(1, work), Put(1)];
    var s0 := System(0, 0, None, None, map[], 0);
    var s1 := Next(s0, actions[0]);
    var s2 := Next(s1, actions[1]);
    var s3 := Next(s2, actions[2]);
    var s4 := Next(s3, actions[3]);
    states := [s0, s1, s2, s3, s4, Next(s4, actions[4])];
  }

  /** A call enters if and only if the lock is free, or its seconds have passed, at the time
      it sampled; a refused one waits until 5 s after it started and then gives up. */
  lemma EntersIff(s: System, p: nat, work: Work, waited: nat)
    requires PhaseOf(s, p).Idle?
    ensures var started := Next(Next(s, Start(p, work)), Tick(waited));
            var after := PhaseOf(Next(started, Put(p)), p);
            if s.lock.None? || s.lock.value.expiresAtSeconds < s.now / 1000 then
              && after == Entered(s.nextOwner, work, s.now)
              && Next(started, Put(p)).lock == Some(Lock(s.nextOwner, s.now / 1000 + 10))
            else
              && Next(started, Put(p)).lock == s.lock
              && (if waited >= 5_000 then after.Idle? else after == Waiting(s.nextOwner, work, s.now + 5_000))
  {
  }

  /** A lock nobody released keeps newcomers out exactly until its whole seconds pass. */
  lemma AbandonedLockExpires(s: System, q: nat, work: Work)
    requires PhaseOf(s, q).Idle? && s.lock.Some?
    ensures PhaseOf(Next(Next(s, Start(q, work)), Put(q)), q).InSection()
      <==> s.lock.value.expiresAtSeconds < Seconds(s.now)
  {
  }
}
