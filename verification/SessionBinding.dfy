/** The versioned binding of a logical session under interleaved resolvers, disconnect
    writers and closers. Every writer reads the session first and writes later. */
module SessionBinding {
  import opened Options

  datatype SessionStatus = Open | Closed

  datatype Affinity = Affinity(provider: string, candidateId: string, handle: string, fingerprint: string, boundAt: int,
    lastUsedAt: int)

  datatype Session = Session(
    status: SessionStatus, bindingVersion: nat, affinity: Option<Affinity>,
    preferredClassHealthySince: Option<int>, lastDisconnectedAt: Option<int>, closedAt: Option<int>,
    terminateActive: bool)

  /** The compare-and-set of `saveLogicalSession`. */
  predicate CanSave(current: Session, expected: nat) {
    current.bindingVersion == expected && current.status == Open
  }

  function Save(current: Session, updated: Session, expected: nat): Session {
    if CanSave(current, expected) then updated else current
  }

  // ----- The writes, as functions of the copy that was read -----

  function WithWindow(copy: Session, since: Option<int>): Session {
    copy.(preferredClassHealthySince := since, bindingVersion := copy.bindingVersion + 1)
  }

  function WithUse(copy: Session, usedAt: int, clearsWindow: bool): Session
    requires copy.affinity.Some?
  {
    copy.(
      bindingVersion := copy.bindingVersion + 1, affinity := Some(copy.affinity.value.(lastUsedAt := usedAt)),
      preferredClassHealthySince := if clearsWindow then None else copy.preferredClassHealthySince)
  }

  function WithBinding(copy: Session, binding: Affinity, clearsWindow: bool): Session {
    copy.(
      bindingVersion := copy.bindingVersion + 1, affinity := Some(binding),
      preferredClassHealthySince := if clearsWindow then None else copy.preferredClassHealthySince)
  }

  function WithDisconnect(copy: Session, at: int): Session { copy.(lastDisconnectedAt := Some(at)) }

  datatype Backend = InMemory | DynamoDB

  /** A closed copy is left alone; the DynamoDB store still writes one to add the
      termination of active connections. */
  predicate Closes(copy: Session, terminate: bool, backend: Backend) {
    copy.status == Open || (backend == DynamoDB && terminate && !copy.terminateActive)
  }

  /** The in-memory store raises the version on closing, the DynamoDB store does not. */
  function WithClose(copy: Session, at: int, terminate: bool, backend: Backend): Session {
    match backend
    case InMemory =>
      copy.(
        status := Closed, closedAt := Some(at), terminateActive := terminate, bindingVersion := copy.bindingVersion + 1)
    case DynamoDB =>
      copy.(
        status := Closed, closedAt := if copy.closedAt.Some? then copy.closedAt else Some(at),
        terminateActive := copy.terminateActive || terminate)
  }

  // ----- Interleaving -----

  datatype Local =
    | Resolving(copy: Session)
    | Disconnecting(copy: Session)
    | Closing(copy: Session, terminate: bool, backend: Backend)

  datatype System = System(session: Session, locals: map<nat, Local>)

  datatype Action =
    | StartResolve(p: nat)
    | SaveWindow(p: nat, since: Option<int>)
    | SaveUse(p: nat, usedAt: int, clearsWindow: bool)
    | SaveBinding(p: nat, binding: Affinity, clearsWindow: bool)
    | StartDisconnect(p: nat)
    | SaveDisconnect(p: nat, at: int)
    | StartClose(p: nat, terminate: bool, backend: Backend)
    | SaveClose(p: nat, at: int)

  predicate Resolver(s: System, p: nat) { p in s.locals && s.locals[p].Resolving? }

  function Next(s: System, a: Action): System {
    match a
    case StartResolve(p) =>
      if p !in s.locals && s.session.status == Open then s.(locals := s.locals[p := Resolving(s.session)]) else s
    case SaveWindow(p, since) =>
      if !Resolver(s, p) then s
      else
        var copy := s.locals[p].copy;
        var updated := WithWindow(copy, since);
        if CanSave(s.session, copy.bindingVersion) then System(updated, s.locals[p := Resolving(updated)]) else s
    case SaveUse(p, usedAt, clearsWindow) =>
      if !Resolver(s, p) || s.locals[p].copy.affinity.None? then s
      else
        var copy := s.locals[p].copy;
        System(Save(s.session, WithUse(copy, usedAt, clearsWindow), copy.bindingVersion), s.locals - {p})
    case SaveBinding(p, binding, clearsWindow) =>
      if !Resolver(s, p) then s
      else
        var copy := s.locals[p].copy;
        System(Save(s.session, WithBinding(copy, binding, clearsWindow), copy.bindingVersion), s.locals - {p})
    case StartDisconnect(p) =>
      if p !in s.locals && s.session.status == Open then s.(locals := s.locals[p := Disconnecting(s.session)]) else s
    case SaveDisconnect(p, at) =>
      if p !in s.locals || !s.locals[p].Disconnecting? then s
      else
        var copy := s.locals[p].copy;
        System(Save(s.session, WithDisconnect(copy, at), copy.bindingVersion), s.locals - {p})
    case StartClose(p, terminate, backend) =>
      if p !in s.locals then s.(locals := s.locals[p := Closing(s.session, terminate, backend)]) else s
    case SaveClose(p, at) =>
      if p !in s.locals || !s.locals[p].Closing? then s
      else
        var Closing(copy, terminate, backend) := s.locals[p];
        System(
          if Closes(copy, terminate, backend) then WithClose(copy, at, terminate, backend) else s.session,
          s.locals - {p})
  }

  ghost predicate IsRun(states: seq<System>, actions: seq<Action>) {
    && |states| == |actions| + 1
    && states[0].locals == map[]
    && (forall k :: 0 <= k < |actions| ==> states[k + 1] == Next(states[k], actions[k]))
  }

  /** Everything a version stands for. */
  ghost predicate SameBinding(a: Session, b: Session) {
    a.affinity == b.affinity && a.preferredClassHealthySince == b.preferredClassHealthySince
  }

  /** While the session is open, a copy held by a writer is not ahead of it, and at the
      same version it holds the same binding. */
  ghost predicate Inv(s: System) {
    forall p :: p in s.locals && !s.locals[p].Closing? ==>
      var copy := s.locals[p].copy;
      && copy.status == Open
      && (s.session.status == Open ==>
            copy.bindingVersion <= s.session.bindingVersion
            && (copy.bindingVersion == s.session.bindingVersion ==> SameBinding(copy, s.session)))
  }

  /** One step as an observer of the session sees it. */
  ghost predicate Advances(before: Session, after: Session) {
    && (before.status == Closed ==> after.status == Closed)
    && (after.status == Open ==>
          && before.bindingVersion <= after.bindingVersion
          && (before.bindingVersion == after.bindingVersion ==> SameBinding(before, after)))
  }

  lemma StepKeeps(s: System, a: Action)
    requires Inv(s)
    ensures Inv(Next(s, a)) && Advances(s.session, Next(s, a).session)
  {
  }

  lemma {:induction false} RunKeeps(states: seq<System>, actions: seq<Action>, k: nat)
    requires IsRun(states, actions) && k <= |actions|
    ensures Inv(states[k])
  {
    hide Next;
    if k > 0 {
      RunKeeps(states, actions, k - 1);
      StepKeeps(states[k - 1], actions[k - 1]);
    }
  }

  lemma {:induction false} RunAdvances(states: seq<System>, actions: seq<Action>, i: nat, j: nat)
    requires IsRun(states, actions) && i <= j <= |actions|
    ensures Advances(states[i].session, states[j].session)
  {
    hide Next, Inv;
    if i < j {
      RunAdvances(states, actions, i, j - 1);
      RunKeeps(states, actions, j - 1);
      StepKeeps(states[j - 1], actions[j - 1]);
    }
  }

  // ----- Results -----

  /** While a session is open, its version determines its affinity. */
  lemma VersionDeterminesBinding(states: seq<System>, actions: seq<Action>, i: nat, j: nat)
    requires IsRun(states, actions) && i <= j <= |actions|
    requires states[i].session.status == Open && states[j].session.status == Open
    requires states[i].session.bindingVersion == states[j].session.bindingVersion
    ensures SameBinding(states[i].session, states[j].session)
  {
    RunAdvances(states, actions, i, j);
  }

  /** The step is a resolver's write that the store accepts over `version`. */
  predicate Installs(s: System, a: Action, version: nat) {
    && (a.SaveWindow? || a.SaveUse? || a.SaveBinding?)
    && Resolver(s, a.p) && (a.SaveUse? ==> s.locals[a.p].copy.affinity.Some?)
    && s.locals[a.p].copy.bindingVersion == version && CanSave(s.session, version)
  }

  /** Of all resolvers that read a version, at most one installs its write over it. */
  lemma OneInstallPerVersion(states: seq<System>, actions: seq<Action>, i: nat, j: nat, version: nat)
    requires IsRun(states, actions) && i < |actions| && j < |actions|
    requires Installs(states[i], actions[i], version) && Installs(states[j], actions[j], version)
    ensures i == j
  {
    if i < j { InstallRaises(states, actions, i, version); RunAdvances(states, actions, i + 1, j); }
    if j < i { InstallRaises(states, actions, j, version); RunAdvances(states, actions, j + 1, i); }
  }

  lemma InstallRaises(states: seq<System>, actions: seq<Action>, i: nat, version: nat)
    requires IsRun(states, actions) && i < |actions| && Installs(states[i], actions[i], version)
    ensures states[i + 1].session.bindingVersion == version + 1
    ensures states[i + 1].session.status == Open
  {
    RunKeeps(states, actions, i);
    assert states[i + 1] == Next(states[i], actions[i]);
  }

  /** A write that is installed replaces the very binding its resolver had read. */
  lemma InstallsOverWhatItRead(states: seq<System>, actions: seq<Action>, i: nat, version: nat)
    requires IsRun(states, actions) && i < |actions| && Installs(states[i], actions[i], version)
    ensures SameBinding(states[i].locals[actions[i].p].copy, states[i].session)
  {
    RunKeeps(states, actions, i);
  }

  /** In every run a resolver's write of a binding takes effect exactly when the session is
      open at the version the resolver read: the binding is there, under the next version;
      otherwise nothing changes. */
  lemma BindingTakesEffect(states: seq<System>, actions: seq<Action>, i: nat)
    requires IsRun(states, actions) && i < |actions| && actions[i].SaveBinding? && Resolver(states[i], actions[i].p)
    ensures var before, after, copy := states[i].session, states[i + 1].session, states[i].locals[actions[i].p].copy;
            if before.status == Open && before.bindingVersion == copy.bindingVersion then
              && after.status == Open && after.bindingVersion == before.bindingVersion + 1
              && after.affinity == Some(actions[i].binding)
              && after.preferredClassHealthySince
                 == (if actions[i].clearsWindow then None else before.preferredClassHealthySince)
            else after == before
    ensures actions[i].p !in states[i + 1].locals
  {
    RunKeeps(states, actions, i);
    assert states[i + 1] == Next(states[i], actions[i]);
  }

  /** A use of the binding marks its time and keeps the rest of it. */
  lemma UseTakesEffect(states: seq<System>, actions: seq<Action>, i: nat)
    requires IsRun(states, actions) && i < |actions| && actions[i].SaveUse? && Resolver(states[i], actions[i].p)
    requires states[i].locals[actions[i].p].copy.affinity.Some?
    ensures var before, after, copy := states[i].session, states[i + 1].session, states[i].locals[actions[i].p].copy;
            if before.status == Open && before.bindingVersion == copy.bindingVersion then
              && after.status == Open && after.bindingVersion == before.bindingVersion + 1
              && before.affinity.Some?
              && after.affinity == Some(before.affinity.value.(lastUsedAt := actions[i].usedAt))
              && after.preferredClassHealthySince
                 == (if actions[i].clearsWindow then None else before.preferredClassHealthySince)
            else after == before
  {
    RunKeeps(states, actions, i);
    assert states[i + 1] == Next(states[i], actions[i]);
  }

  /** A health window is opened or closed alone, and the resolver goes on from there. */
  lemma WindowTakesEffect(states: seq<System>, actions: seq<Action>, i: nat)
    requires IsRun(states, actions) && i < |actions| && actions[i].SaveWindow? && Resolver(states[i], actions[i].p)
    ensures var before, after, copy := states[i].session, states[i + 1].session, states[i].locals[actions[i].p].copy;
            if before.status == Open && before.bindingVersion == copy.bindingVersion then
              && after.status == Open && after.bindingVersion == before.bindingVersion + 1
              && after.affinity == before.affinity && after.preferredClassHealthySince == actions[i].since
              && states[i + 1].locals[actions[i].p].copy == after
            else states[i + 1] == states[i]
  {
    RunKeeps(states, actions, i);
    assert states[i + 1] == Next(states[i], actions[i]);
  }

  /** A close of a session that was read open closes it, whatever was written since. */
  lemma CloseTakesEffect(states: seq<System>, actions: seq<Action>, i: nat)
    requires IsRun(states, actions) && i < |actions| && actions[i].SaveClose?
    requires actions[i].p in states[i].locals && states[i].locals[actions[i].p].Closing?
    requires states[i].locals[actions[i].p].copy.status == Open
    ensures var local, after := states[i].locals[actions[i].p], states[i + 1].session;
            && after.status == Closed
            && (local.copy.closedAt.None? ==> after.closedAt == Some(actions[i].at))
            && (local.terminate ==> after.terminateActive)
            && (local.backend == InMemory ==> after.bindingVersion == local.copy.bindingVersion + 1)
            && (local.backend == DynamoDB ==> after.bindingVersion == local.copy.bindingVersion)
  {
    assert states[i + 1] == Next(states[i], actions[i]);
  }

  /** A resolver undisturbed between its read and its write installs its binding. */
  lemma UndisturbedInstalls(s: System, p: nat, binding: Affinity)
    requires p !in s.locals && s.session.status == Open
    ensures Next(Next(s, StartResolve(p)), SaveBinding(p, binding, false)).session.affinity == Some(binding)
  {
  }

  /** A disconnect write changes neither version nor binding, whenever it lands. */
  lemma DisconnectNeverReverts(states: seq<System>, actions: seq<Action>, i: nat)
    requires IsRun(states, actions) && i < |actions| && actions[i].SaveDisconnect?
    ensures states[i + 1].session.bindingVersion == states[i].session.bindingVersion
    ensures SameBinding(states[i + 1].session, states[i].session)
      && states[i + 1].session.status == states[i].session.status
  {
    RunKeeps(states, actions, i);
    assert states[i + 1] == Next(states[i], actions[i]);
  }

  /** A closed session is never reopened, whatever writes are still under way. */
  lemma ClosedForGood(states: seq<System>, actions: seq<Action>, i: nat, j: nat)
    requires IsRun(states, actions) && i <= j <= |actions|
    requires states[i].session.status == Closed
    ensures states[j].session.status == Closed
  {
    RunAdvances(states, actions, i, j);
  }

  // ----- The time of the last disconnect -----

  /** A writer that still holds another disconnect time and whose next write the store
      will take: a resolver at the session's version, or a closer that will write. */
  predicate HoldsOther(s: System, p: nat, at: int) {
    && p in s.locals && s.locals[p].copy.lastDisconnectedAt != Some(at)
    && match s.locals[p]
       case Closing(copy, terminate, backend) => Closes(copy, terminate, backend)
       case Resolving(copy) => CanSave(s.session, copy.bindingVersion)
       case Disconnecting(_) => false
  }

  ghost predicate SomeHoldsOther(s: System, at: int) { exists p :: HoldsOther(s, p, at) }

  /** The step records another disconnect. */
  predicate Records(s: System, a: Action) {
    a.SaveDisconnect? && a.p in s.locals && s.locals[a.p].Disconnecting?
      && CanSave(s.session, s.locals[a.p].copy.bindingVersion)
  }

  lemma TimeStep(s: System, a: Action, at: int)
    requires Inv(s) && s.session.lastDisconnectedAt == Some(at) && !SomeHoldsOther(s, at) && !Records(s, a)
    ensures Next(s, a).session.lastDisconnectedAt == Some(at) && !SomeHoldsOther(Next(s, a), at)
  {
    assert a.p in s.locals ==> !HoldsOther(s, a.p, at);
    forall p ensures !HoldsOther(Next(s, a), p, at) {
      assert !HoldsOther(s, p, at);
    }
  }

  /** In every run, a recorded disconnect time survives every step but the record of the
      next disconnect, once no writer that can still write holds another. */
  lemma {:induction false} DisconnectTimeSurvives(states: seq<System>, actions: seq<Action>, i: nat, j: nat, at: int)
    requires IsRun(states, actions) && i <= j <= |actions|
    requires states[i].session.lastDisconnectedAt == Some(at) && !SomeHoldsOther(states[i], at)
    requires forall k :: i <= k < j ==> !Records(states[k], actions[k])
    ensures states[j].session.lastDisconnectedAt == Some(at) && !SomeHoldsOther(states[j], at)
  {
    hide Next, Inv, SomeHoldsOther, Records;
    if i < j {
      DisconnectTimeSurvives(states, actions, i, j - 1, at);
      RunKeeps(states, actions, j - 1);
      TimeStep(states[j - 1], actions[j - 1], at);
    }
  }

  function AnyAffinity(): Affinity { Affinity("", "", "", "", 0, 0) }

  /** The write of a holder of another time, whatever it binds. */
  function OtherWrite(s: System, p: nat): Action {
    if p in s.locals && s.locals[p].Closing? then SaveClose(p, 0) else SaveBinding(p, AnyAffinity(), false)
  }

  lemma HolderOverwrites(s: System, p: nat, at: int)
    requires HoldsOther(s, p, at)
    ensures Next(s, OtherWrite(s, p)).session.lastDisconnectedAt == s.locals[p].copy.lastDisconnectedAt
  {
  }

  function After(s: System, more: seq<Action>): System
    decreases |more|
  {
    if more == [] then s else After(Next(s, more[0]), more[1..])
  }

  predicate RecordsNone(s: System, more: seq<Action>)
    decreases |more|
  {
    more == [] || (!Records(s, more[0]) && RecordsNone(Next(s, more[0]), more[1..]))
  }

  /** Whatever happens next, short of another recorded disconnect, the time stays. */
  ghost predicate Survives(s: System, at: int) {
    forall more :: RecordsNone(s, more) ==> After(s, more).session.lastDisconnectedAt == Some(at)
  }

  lemma {:induction false} TimeSteps(s: System, more: seq<Action>, at: int)
    requires Inv(s) && s.session.lastDisconnectedAt == Some(at) && !SomeHoldsOther(s, at) && RecordsNone(s, more)
    ensures After(s, more).session.lastDisconnectedAt == Some(at)
    decreases |more|
  {
    hide Next, Inv, SomeHoldsOther, Records;
    if more != [] {
      StepKeeps(s, more[0]);
      TimeStep(s, more[0], at);
      TimeSteps(Next(s, more[0]), more[1..], at);
    }
  }

  /** The exact condition: in every state of a run, the recorded time survives if and only
      if no resolver at the session's version and no closer that will write holds another. */
  lemma DisconnectTimeSurvivesIff(states: seq<System>, actions: seq<Action>, i: nat, at: int)
    requires IsRun(states, actions) && i <= |actions| && states[i].session.lastDisconnectedAt == Some(at)
    ensures Survives(states[i], at) <==> !SomeHoldsOther(states[i], at)
  {
    hide Next, Inv;
    var s := states[i];
    RunKeeps(states, actions, i);
    if SomeHoldsOther(s, at) {
      var p :| HoldsOther(s, p, at);
      var write := OtherWrite(s, p);
      HolderOverwrites(s, p, at);
      assert RecordsNone(Next(s, write), [write][1..]);
      assert RecordsNone(s, [write]);
      assert After(s, [write]) == After(Next(s, write), []);
    } else {
      forall more | RecordsNone(s, more) ensures After(s, more).session.lastDisconnectedAt == Some(at) {
        TimeSteps(s, more, at);
      }
    }
  }

  /** What a disconnect write leaves: the recorded time is lost for some continuation
      exactly when another writer had read the session before it and can still write. */
  lemma RecordedTimeCanBeLost(states: seq<System>, actions: seq<Action>, i: nat)
    requires IsRun(states, actions) && i < |actions| && Records(states[i], actions[i])
    ensures states[i + 1].session.lastDisconnectedAt == Some(actions[i].at)
    ensures !Survives(states[i + 1], actions[i].at)
      <==> exists p :: p != actions[i].p && HoldsOther(states[i], p, actions[i].at)
  {
    hide Inv, After, Survives;
    var d, at := actions[i].p, actions[i].at;
    RunKeeps(states, actions, i);
    assert states[i + 1] == Next(states[i], actions[i]);
    WriteKeepsHolders(states[i], d, at);
    DisconnectTimeSurvivesIff(states, actions, i + 1, at);
    assert forall p :: HoldsOther(states[i + 1], p, at) <==> p != d && HoldsOther(states[i], p, at);
  }

  lemma WriteKeepsHolders(s: System, d: nat, at: int)
    requires Inv(s) && Records(s, SaveDisconnect(d, at))
    ensures Next(s, SaveDisconnect(d, at)).session.lastDisconnectedAt == Some(at)
    ensures forall p :: HoldsOther(Next(s, SaveDisconnect(d, at)), p, at) <==> p != d && HoldsOther(s, p, at)
  {
  }

  /** A run in which it happens: a resolver reads, a disconnect is recorded, and the
      resolver's write puts back what it read. */
  lemma DisconnectTimeCanBeLost() returns (states: seq<System>, actions: seq<Action>)
    ensures IsRun(states, actions) && |actions| == 4
    ensures states[3].session.lastDisconnectedAt == Some(5) && states[4].session.lastDisconnectedAt == None
    ensures states[4].session.status == Open && !Records(states[3], actions[3])
  {
    var session := Session(Open, 0, None, None, None, None, false);
    actions := [StartResolve(0), StartDisconnect(1), SaveDisconnect(1, 5), SaveBinding(0, AnyAffinity(), false)];
    var s0 := System(session, map[]);
    var s1 := Next(s0, actions[0]);
    var s2 := Next(s1, actions[1]);
    var s3 := Next(s2, actions[2]);
    states := [s0, s1, s2, s3, Next(s3, actions[3])];
  }

  // ----- The in-memory store -----

  class SessionStore {
    var sessions: map<string, Session>

    constructor ()
      ensures sessions == map[]
    {
      sessions := map[];
    }

    method CreateLogicalSession(id: string, session: Session) returns (created: bool)
      modifies this
      ensures created <==> id !in old(sessions)
      ensures sessions == if created then old(sessions)[id := session] else old(sessions)
    {
      created := id !in sessions;
      if created { sessions := sessions[id := session]; }
    }

    method GetLogicalSession(id: string, includeClosed: bool) returns (session: Option<Session>)
      ensures session.Some? <==> id in sessions && (includeClosed || sessions[id].status == Open)
      ensures session.Some? ==> session.value == sessions[id]
    {
      session := if id in sessions && (includeClosed || sessions[id].status == Open) then Some(sessions[id]) else None;
    }

    method SaveLogicalSession(id: string, session: Session, expected: nat) returns (saved: bool)
      modifies this
      ensures saved <==> id in old(sessions) && CanSave(old(sessions)[id], expected)
      ensures id !in old(sessions) ==> sessions == old(sessions)
      ensures id in old(sessions) ==> sessions == old(sessions)[id := Save(old(sessions)[id], session, expected)]
    {
      if id !in sessions || sessions[id].bindingVersion != expected || sessions[id].status == Closed { return false; }
      sessions := sessions[id := session];
      saved := true;
    }

    /** The write of `closeLogicalSession`, given the copy its read returned; a copy that
        was closed already is left alone. */
    method WriteClosed(id: string, copy: Session, terminate: bool, now: int)
      modifies this
      ensures sessions
        == if Closes(copy, terminate, InMemory) then old(sessions)[id := WithClose(copy, now, terminate, InMemory)]
           else old(sessions)
    {
      if copy.status == Closed { return; }
      var session := copy.(status := Closed, terminateActive := terminate, closedAt := Some(now));
      session := session.(bindingVersion := session.bindingVersion + 1);
      sessions := sessions[id := session];
    }
  }
}
