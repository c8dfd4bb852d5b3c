/** Active tunnels and the load leases that count them: the shared DynamoDB table under
    interleaved calls, against the in-memory map of tunnels. */
module ActiveLoad {
  import opened Options
  import opened Sums

  type Id = string

  datatype Tunnel = Tunnel(provider: Id, endpointId: Option<Id>, sessionId: Option<Id>, startedAt: int, expiresAt: int)

  /** `UnscopedEndpoint` is a partition that is asked for and that no tunnel is counted in. */
  datatype LeaseKey =
    | ProviderLoad(provider: Id)
    | EndpointLoad(provider: Id, endpointId: Id)
    | SessionLoad(sessionId: Id)
    | UnscopedEndpoint(endpointId: Id)

  /** The partitions a tunnel is counted in; none of it changes during its life. */
  function LeaseKeys(t: Tunnel): set<LeaseKey> {
    {ProviderLoad(t.provider)}
    + (if t.endpointId.Some? then {EndpointLoad(t.provider, t.endpointId.value)} else {})
    + (if t.sessionId.Some? then {SessionLoad(t.sessionId.value)} else {})
  }

  datatype Item = Item(tunnel: Tunnel, expiresAtSeconds: int, listed: bool)

  datatype Table = Table(items: map<Id, Item>, leases: map<(LeaseKey, Id), int>)

  function FloorSeconds(t: int): int { t / 1000 }

  function CeilSeconds(t: int): int { -((-t) / 1000) }

  function LeasesOf(t: Tunnel, id: Id): set<(LeaseKey, Id)> { set k | k in LeaseKeys(t) :: (k, id) }

  // ----- The three transactions -----

  function RegisterTransaction(table: Table, id: Id, t: Tunnel): Table {
    if id in table.items || table.leases.Keys * LeasesOf(t, id) != {} then table
    else
      var ttl := CeilSeconds(t.expiresAt);
      Table(table.items[id := Item(t, ttl, true)], table.leases + (map k | k in LeasesOf(t, id) :: ttl))
  }

  /** Cancelled as a whole unless the item and every lease still exist. */
  function HeartbeatTransaction(table: Table, id: Id, read: Tunnel, expiresAt: int): Table {
    if id !in table.items || !(LeasesOf(read, id) <= table.leases.Keys) then table
    else
      var ttl := CeilSeconds(expiresAt);
      var item := table.items[id];
      Table(
        table.items[id := item.(tunnel := item.tunnel.(expiresAt := expiresAt), expiresAtSeconds := ttl)],
        table.leases + (map k | k in LeasesOf(read, id) :: ttl))
  }

  /** The item stays behind, unlisted and expired; the leases go. */
  function RemoveTransaction(table: Table, id: Id, read: Tunnel, now: int): Table {
    var items := if id in table.items
                 then table.items[id := table.items[id].(expiresAtSeconds := FloorSeconds(now) - 1, listed := false)]
                 else table.items;
    Table(items, table.leases - LeasesOf(read, id))
  }

  // ----- Interleaved calls -----

  /** A heartbeat or removal between its read and its transaction. */
  datatype Call = Beat(id: Id, read: Tunnel, expiresAt: int) | Removal(id: Id, read: Tunnel)

  /** `live` is the map the in-memory store would hold. */
  datatype System = System(table: Table, live: map<Id, Tunnel>, pending: map<nat, Call>)

  datatype Action =
    | Register(id: Id, tunnel: Tunnel)
    | ReadForBeat(call: nat, id: Id, expiresAt: int)
    | ReadForRemoval(call: nat, id: Id)
    | Commit(call: nat, now: int)

  function Next(s: System, a: Action): System {
    match a
    case Register(id, t) =>
      if id in s.table.items then s else s.(table := RegisterTransaction(s.table, id, t), live := s.live[id := t])
    case ReadForBeat(call, id, expiresAt) =>
      if id in s.table.items && call !in s.pending
        then s.(pending := s.pending[call := Beat(id, s.table.items[id].tunnel, expiresAt)]) else s
    case ReadForRemoval(call, id) =>
      if id in s.table.items && call !in s.pending
        then s.(pending := s.pending[call := Removal(id, s.table.items[id].tunnel)]) else s
    case Commit(call, now) =>
      if call !in s.pending then s
      else
        var rest := s.pending - {call};
        match s.pending[call]
        case Beat(id, read, expiresAt) =>
          System(
            HeartbeatTransaction(s.table, id, read, expiresAt),
            if id in s.live then s.live[id := s.live[id].(expiresAt := expiresAt)] else s.live, rest)
        case Removal(id, read) => System(RemoveTransaction(s.table, id, read, now), s.live - {id}, rest)
  }

  ghost predicate IsRun(states: seq<System>, actions: seq<Action>) {
    && |states| == |actions| + 1
    && states[0] == System(Table(map[], map[]), map[], map[])
    && (forall k :: 0 <= k < |actions| ==> states[k + 1] == Next(states[k], actions[k]))
  }

  // ----- The invariant -----

  /** Leases are those of live tunnels, with their expiry rounded up to a second. */
  ghost predicate LeasesMatch(leases: map<(LeaseKey, Id), int>, live: map<Id, Tunnel>) {
    && (forall k :: k in leases <==> k.1 in live && k.0 in LeaseKeys(live[k.1]))
    && (forall k :: k in leases ==> leases[k] == CeilSeconds(live[k.1].expiresAt))
  }

  ghost predicate Known(table: Table, id: Id, t: Tunnel) {
    id in table.items && LeaseKeys(table.items[id].tunnel) == LeaseKeys(t)
  }

  ghost predicate Inv(s: System) {
    && LeasesMatch(s.table.leases, s.live)
    && (forall id :: id in s.live ==> Known(s.table, id, s.live[id]))
    && (forall call :: call in s.pending ==> Known(s.table, s.pending[call].id, s.pending[call].read))
  }

  lemma KeysFixed(t: Tunnel, expiresAt: int)
    ensures LeaseKeys(t.(expiresAt := expiresAt)) == LeaseKeys(t)
    ensures ProviderLoad(t.provider) in LeaseKeys(t)
  {
  }

  lemma LeasesAdd(leases: map<(LeaseKey, Id), int>, live: map<Id, Tunnel>, id: Id, t: Tunnel)
    requires LeasesMatch(leases, live) && id !in live
    ensures leases.Keys * LeasesOf(t, id) == {}
    ensures LeasesMatch(leases + (map k | k in LeasesOf(t, id) :: CeilSeconds(t.expiresAt)), live[id := t])
  {
    hide LeaseKeys, CeilSeconds;
    assert leases.Keys * LeasesOf(t, id) == {};
  }

  lemma LeasesRefresh(leases: map<(LeaseKey, Id), int>, live: map<Id, Tunnel>, id: Id, read: Tunnel, expiresAt: int)
    requires LeasesMatch(leases, live) && id in live && LeaseKeys(read) == LeaseKeys(live[id])
    ensures LeasesOf(read, id) <= leases.Keys
    ensures LeasesMatch(leases + (map k | k in LeasesOf(read, id) :: CeilSeconds(expiresAt)),
      live[id := live[id].(expiresAt := expiresAt)])
  {
    KeysFixed(live[id], expiresAt);
    hide LeaseKeys, CeilSeconds;
  }

  lemma LeasesGone(leases: map<(LeaseKey, Id), int>, live: map<Id, Tunnel>, id: Id, read: Tunnel)
    requires LeasesMatch(leases, live) && id !in live
    ensures !(LeasesOf(read, id) <= leases.Keys)
    ensures leases - LeasesOf(read, id) == leases
  {
    KeysFixed(read, 0);
    hide LeaseKeys, CeilSeconds;
    assert (ProviderLoad(read.provider), id) in LeasesOf(read, id);
  }

  lemma LeasesDrop(leases: map<(LeaseKey, Id), int>, live: map<Id, Tunnel>, id: Id, read: Tunnel)
    requires LeasesMatch(leases, live)
    requires id in live ==> LeaseKeys(read) == LeaseKeys(live[id])
    ensures LeasesMatch(leases - LeasesOf(read, id), live - {id})
  {
    hide LeaseKeys, CeilSeconds;
  }

  /** Reads and live tunnels stay known when no item changes its lease keys. */
  lemma ItemsKeep(s: System, next: System)
    requires forall id :: id in s.live ==> Known(s.table, id, s.live[id])
    requires forall call :: call in s.pending ==> Known(s.table, s.pending[call].id, s.pending[call].read)
    requires forall x :: x in s.table.items ==>
      x in next.table.items && LeaseKeys(next.table.items[x].tunnel) == LeaseKeys(s.table.items[x].tunnel)
    requires forall x :: x in next.live ==>
      Known(next.table, x, next.live[x]) || (x in s.live && LeaseKeys(next.live[x]) == LeaseKeys(s.live[x]))
    requires forall c :: c in next.pending ==> c in s.pending && next.pending[c] == s.pending[c]
    ensures forall x :: x in next.live ==> Known(next.table, x, next.live[x])
    ensures forall c :: c in next.pending ==> Known(next.table, next.pending[c].id, next.pending[c].read)
  {
    hide LeaseKeys;
  }

  lemma RegisterKeeps(s: System, id: Id, t: Tunnel)
    requires Inv(s)
    ensures Inv(Next(s, Register(id, t)))
  {
    if id !in s.table.items {
      hide LeaseKeys, CeilSeconds, LeasesOf, LeasesMatch;
      LeasesAdd(s.table.leases, s.live, id, t);
      ItemsKeep(s, Next(s, Register(id, t)));
    }
  }

  lemma BeatKeeps(s: System, call: nat, now: int)
    requires Inv(s) && call in s.pending && s.pending[call].Beat?
    ensures Inv(Next(s, Commit(call, now)))
    ensures s.pending[call].id !in s.live ==> Next(s, Commit(call, now)).table == s.table
  {
    var Beat(id, read, expiresAt) := s.pending[call];
    assert Known(s.table, id, read);
    KeysFixed(s.table.items[id].tunnel, expiresAt);
    hide LeaseKeys, CeilSeconds, LeasesOf, LeasesMatch;
    if id in s.live {
      KeysFixed(s.live[id], expiresAt);
      assert Known(s.table, id, s.live[id]);
      LeasesRefresh(s.table.leases, s.live, id, read, expiresAt);
      ItemsKeep(s, Next(s, Commit(call, now)));
    } else {
      LeasesGone(s.table.leases, s.live, id, read);
      ItemsKeep(s, Next(s, Commit(call, now)));
    }
  }

  lemma RemovalKeeps(s: System, call: nat, now: int)
    requires Inv(s) && call in s.pending && s.pending[call].Removal?
    ensures Inv(Next(s, Commit(call, now)))
  {
    var Removal(id, read) := s.pending[call];
    assert Known(s.table, id, read);
    assert id in s.live ==> Known(s.table, id, s.live[id]);
    hide LeaseKeys, CeilSeconds, LeasesOf, LeasesMatch;
    LeasesDrop(s.table.leases, s.live, id, read);
    ItemsKeep(s, Next(s, Commit(call, now)));
  }

  lemma StepKeeps(s: System, a: Action)
    requires Inv(s)
    ensures Inv(Next(s, a))
  {
    match a
    case Register(id, t) => RegisterKeeps(s, id, t);
    case ReadForBeat(call, id, expiresAt) =>
    case ReadForRemoval(call, id) =>
    case Commit(call, now) =>
      if call in s.pending {
        if s.pending[call].Beat? { BeatKeeps(s, call, now); } else { RemovalKeeps(s, call, now); }
      }
  }

  lemma {:induction false} RunKeeps(states: seq<System>, actions: seq<Action>, k: nat)
    requires IsRun(states, actions) && k <= |actions|
    ensures Inv(states[k])
  {
    hide Next, Inv;
    if k == 0 {
      StartKeeps();
    } else {
      RunKeeps(states, actions, k - 1);
      StepKeeps(states[k - 1], actions[k - 1]);
    }
  }

  lemma StartKeeps()
    ensures Inv(System(Table(map[], map[]), map[], map[]))
  {
  }

  // ----- Results -----

  /** In every interleaving the lease records are exactly those of the tunnels that are
      registered and not removed. */
  lemma LeasesAreExact(states: seq<System>, actions: seq<Action>, k: nat)
    requires IsRun(states, actions) && k <= |actions|
    ensures LeasesMatch(states[k].table.leases, states[k].live)
  {
    RunKeeps(states, actions, k);
  }

  /** A heartbeat that commits after the removal of its tunnel changes nothing. */
  lemma LateHeartbeatIsCancelled(states: seq<System>, actions: seq<Action>, k: nat)
    requires IsRun(states, actions) && k < |actions|
    requires actions[k].Commit? && actions[k].call in states[k].pending
    requires states[k].pending[actions[k].call].Beat? && states[k].pending[actions[k].call].id !in states[k].live
    ensures states[k + 1].table == states[k].table && states[k + 1].live == states[k].live
  {
    RunKeeps(states, actions, k);
    BeatKeeps(states[k], actions[k].call, actions[k].now);
  }

  /** Once removed, a tunnel is not live again, whatever calls are still under way. */
  lemma {:induction false} RemovedForGood(states: seq<System>, actions: seq<Action>, i: nat, j: nat, id: Id)
    requires IsRun(states, actions) && i <= j <= |actions|
    requires id in states[i].table.items && id !in states[i].live
    ensures id in states[j].table.items && id !in states[j].live
  {
    if i < j {
      RemovedForGood(states, actions, i, j - 1, id);
      assert states[j] == Next(states[j - 1], actions[j - 1]);
    }
  }

  // ----- Counting -----

  /** What a count query sees: leases whose second lies after the current one. */
  ghost function LeasedIds(table: Table, key: LeaseKey, now: int): set<Id> {
    set k | k in table.leases && k.0 == key && table.leases[k] > FloorSeconds(now) :: k.1
  }

  /** What the in-memory store counts. */
  ghost function LiveIds(live: map<Id, Tunnel>, key: LeaseKey, now: int): set<Id> {
    set id | id in live && key in LeaseKeys(live[id]) && live[id].expiresAt > now
  }

  /** Leases that ended less than a second ago. */
  ghost function JustEnded(live: map<Id, Tunnel>, key: LeaseKey, now: int): set<Id> {
    set id | id in live && key in LeaseKeys(live[id]) && now - 1000 < live[id].expiresAt <= now
  }

  lemma SecondRounding(expiresAt: int, now: int)
    ensures expiresAt > now ==> CeilSeconds(expiresAt) > FloorSeconds(now)
    ensures CeilSeconds(expiresAt) > FloorSeconds(now) ==> now - 1000 < expiresAt
  {
  }

  /** The DynamoDB count is at least the in-memory one and exceeds it only by leases
      that ended less than a second ago. */
  lemma CountsAgree(states: seq<System>, actions: seq<Action>, k: nat, key: LeaseKey, now: int)
    requires IsRun(states, actions) && k <= |actions|
    ensures LiveIds(states[k].live, key, now) <= LeasedIds(states[k].table, key, now)
    ensures LeasedIds(states[k].table, key, now)
      <= LiveIds(states[k].live, key, now) + JustEnded(states[k].live, key, now)
    ensures |LiveIds(states[k].live, key, now)| <= |LeasedIds(states[k].table, key, now)|
         <= |LiveIds(states[k].live, key, now)| + |JustEnded(states[k].live, key, now)|
  {
    RunKeeps(states, actions, k);
    var table, live := states[k].table, states[k].live;
    forall id | id in LiveIds(live, key, now) ensures id in LeasedIds(table, key, now) {
      SecondRounding(live[id].expiresAt, now);
      assert (key, id) in table.leases;
    }
    forall id | id in LeasedIds(table, key, now) ensures id in LiveIds(live, key, now) + JustEnded(live, key, now) {
      assert (key, id) in table.leases;
      SecondRounding(live[id].expiresAt, now);
    }
    SubsetSize(LiveIds(live, key, now), LeasedIds(table, key, now));
    SubsetSize(LeasedIds(table, key, now), LiveIds(live, key, now) + JustEnded(live, key, now));
    assert |LiveIds(live, key, now) + JustEnded(live, key, now)|
      <= |LiveIds(live, key, now)| + |JustEnded(live, key, now)|;
  }

  // ----- The in-memory store -----

  class TunnelStore {
    var tunnels: map<Id, Tunnel>

    constructor ()
      ensures tunnels == map[]
    {
      tunnels := map[];
    }

    method RegisterActiveTunnel(id: Id, tunnel: Tunnel) returns (registered: bool)
      modifies this
      ensures registered <==> id !in old(tunnels)
      ensures tunnels == if registered then old(tunnels)[id := tunnel] else old(tunnels)
    {
      registered := id !in tunnels;
      if registered { tunnels := tunnels[id := tunnel]; }
    }

    method HeartbeatActiveTunnel(id: Id, expiresAt: int)
      modifies this
      ensures tunnels == if id in old(tunnels) then old(tunnels)[id := old(tunnels)[id].(expiresAt := expiresAt)]
        else old(tunnels)
    {
      if id in tunnels { tunnels := tunnels[id := tunnels[id].(expiresAt := expiresAt)]; }
    }

    method RemoveActiveTunnel(id: Id)
      modifies this
      ensures tunnels == old(tunnels) - {id}
    {
      tunnels := tunnels - {id};
    }

    /** The counting loop; every id asked for starts at zero. */
    method GetActiveConnectionCounts(
      providers: seq<Id>, endpointIds: set<Id>, sessionIds: set<Id>, now: int) returns (counts: Counts)
      ensures Counted(counts, tunnels, providers, endpointIds, sessionIds, now)
    {
      counts := Counts(map p | p in providers :: 0, map e | e in endpointIds :: 0, map x | x in sessionIds :: 0);
      NothingCounted(counts, providers, endpointIds, sessionIds, now);
      var rest := tunnels.Keys;
      ghost var seen: map<Id, Tunnel> := map[];
      while rest != {}
        invariant rest <= tunnels.Keys && seen.Keys == tunnels.Keys - rest
        invariant forall id :: id in seen ==> seen[id] == tunnels[id]
        invariant Counted(counts, seen, providers, endpointIds, sessionIds, now)
        decreases rest
      {
        hide Counted;
        var id :| id in rest;
        CountStep(counts, seen, id, tunnels[id], providers, endpointIds, sessionIds, now);
        counts := AddTunnel(counts, tunnels[id], providers, now);
        seen := seen[id := tunnels[id]];
        rest := rest - {id};
      }
      assert seen == tunnels;
    }
  }

  datatype Counts = Counts(providers: map<Id, nat>, endpoints: map<Id, nat>, sessions: map<Id, nat>)

  /** With exactly one provider asked for, only its tunnels count for an endpoint. */
  predicate Scoped(t: Tunnel, providers: seq<Id>) { |providers| != 1 || t.provider == providers[0] }

  ghost function EndpointIds(live: map<Id, Tunnel>, providers: seq<Id>, endpointId: Id, now: int): set<Id> {
    set id | id in live && live[id].endpointId == Some(endpointId) && Scoped(live[id], providers)
      && live[id].expiresAt > now
  }

  ghost predicate Counted(
    c: Counts, seen: map<Id, Tunnel>, providers: seq<Id>, endpointIds: set<Id>, sessionIds: set<Id>, now: int)
  {
    && c.providers.Keys == (set p | p in providers) && c.endpoints.Keys == endpointIds && c.sessions.Keys == sessionIds
    && (forall p :: p in c.providers ==> c.providers[p] == |LiveIds(seen, ProviderLoad(p), now)|)
    && (forall e :: e in endpointIds ==> c.endpoints[e] == |EndpointIds(seen, providers, e, now)|)
    && (forall x :: x in sessionIds ==> c.sessions[x] == |LiveIds(seen, SessionLoad(x), now)|)
  }

  function Bump(m: map<Id, nat>, id: Option<Id>): map<Id, nat> {
    if id.Some? && id.value in m then m[id.value := m[id.value] + 1] else m
  }

  /** The body of the counting loop. */
  function AddTunnel(c: Counts, t: Tunnel, providers: seq<Id>, now: int): Counts {
    if t.expiresAt <= now then c
    else Counts(
      Bump(c.providers, Some(t.provider)),
      if Scoped(t, providers) then Bump(c.endpoints, t.endpointId) else c.endpoints,
      Bump(c.sessions, t.sessionId))
  }

  lemma NothingCounted(c: Counts, providers: seq<Id>, endpointIds: set<Id>, sessionIds: set<Id>, now: int)
    requires c == Counts(map p | p in providers :: 0, map e | e in endpointIds :: 0, map x | x in sessionIds :: 0)
    ensures Counted(c, map[], providers, endpointIds, sessionIds, now)
  {
    forall key ensures LiveIds(map[], key, now) == {} { }
    forall e ensures EndpointIds(map[], providers, e, now) == {} { }
  }

  lemma KeyMembership(t: Tunnel, key: LeaseKey)
    ensures key in LeaseKeys(t) <==>
      match key
      case ProviderLoad(provider) => t.provider == provider
      case EndpointLoad(provider, endpointId) => t.provider == provider && t.endpointId == Some(endpointId)
      case SessionLoad(sessionId) => t.sessionId == Some(sessionId)
      case UnscopedEndpoint(_) => false
  {
  }

  lemma CountStep(
    c: Counts, seen: map<Id, Tunnel>, id: Id, t: Tunnel, providers: seq<Id>, endpointIds: set<Id>, sessionIds: set<Id>,
    now: int)
    requires Counted(c, seen, providers, endpointIds, sessionIds, now) && id !in seen
    ensures Counted(AddTunnel(c, t, providers, now), seen[id := t], providers, endpointIds, sessionIds, now)
  {
    hide LiveIds, LeaseKeys, EndpointIds;
    var after, more := AddTunnel(c, t, providers, now), seen[id := t];
    forall p | p in c.providers ensures after.providers[p] == |LiveIds(more, ProviderLoad(p), now)| {
      LiveStep(seen, id, t, ProviderLoad(p), now);
      KeyMembership(t, ProviderLoad(p));
    }
    forall e | e in endpointIds ensures after.endpoints[e] == |EndpointIds(more, providers, e, now)| {
      EndpointStep(seen, id, t, providers, e, now);
    }
    forall x | x in sessionIds ensures after.sessions[x] == |LiveIds(more, SessionLoad(x), now)| {
      LiveStep(seen, id, t, SessionLoad(x), now);
      KeyMembership(t, SessionLoad(x));
    }
  }

  lemma EndpointStep(seen: map<Id, Tunnel>, id: Id, t: Tunnel, providers: seq<Id>, e: Id, now: int)
    requires id !in seen
    ensures |EndpointIds(seen[id := t], providers, e, now)|
         == |EndpointIds(seen, providers, e, now)|
           + (if t.endpointId == Some(e) && Scoped(t, providers) && t.expiresAt > now then 1 else 0)
  {
    var more := EndpointIds(seen[id := t], providers, e, now);
    if t.endpointId == Some(e) && Scoped(t, providers) && t.expiresAt > now {
      assert more == EndpointIds(seen, providers, e, now) + {id};
    } else {
      assert more == EndpointIds(seen, providers, e, now);
    }
  }

  lemma LiveStep(seen: map<Id, Tunnel>, id: Id, t: Tunnel, key: LeaseKey, now: int)
    requires id !in seen
    ensures |LiveIds(seen[id := t], key, now)|
      == |LiveIds(seen, key, now)| + (if key in LeaseKeys(t) && t.expiresAt > now then 1 else 0)
  {
    hide LeaseKeys;
    var more := LiveIds(seen[id := t], key, now);
    if key in LeaseKeys(t) && t.expiresAt > now {
      assert more == LiveIds(seen, key, now) + {id};
    } else {
      assert more == LiveIds(seen, key, now);
    }
  }

  // ----- Endpoint counts of the two stores -----

  /** The partition the DynamoDB store counts an endpoint in. */
  function EndpointKey(providers: seq<Id>, endpointId: Id): LeaseKey {
    if |providers| == 1 then EndpointLoad(providers[0], endpointId) else UnscopedEndpoint(endpointId)
  }

  lemma EndpointOfOne(live: map<Id, Tunnel>, providers: seq<Id>, endpointId: Id, now: int)
    ensures |providers| == 1 ==>
      EndpointIds(live, providers, endpointId, now) == LiveIds(live, EndpointKey(providers, endpointId), now)
    ensures |providers| != 1 ==>
      LiveIds(live, EndpointKey(providers, endpointId), now) == {}
        && JustEnded(live, EndpointKey(providers, endpointId), now) == {}
  {
    hide LeaseKeys;
    forall id | id in live ensures EndpointKey(providers, endpointId) in LeaseKeys(live[id])
      <==> |providers| == 1 && live[id].endpointId == Some(endpointId) && live[id].provider == providers[0] {
      KeyMembership(live[id], EndpointKey(providers, endpointId));
    }
  }

  /** In every run the DynamoDB endpoint count covers the in-memory one if and only if
      exactly one provider is asked for or there is nothing to count. */
  lemma EndpointCountsAgree(
    states: seq<System>, actions: seq<Action>, k: nat, providers: seq<Id>, endpointId: Id, now: int)
    requires IsRun(states, actions) && k <= |actions|
    ensures var counted := EndpointIds(states[k].live, providers, endpointId, now);
            var leased := LeasedIds(states[k].table, EndpointKey(providers, endpointId), now);
            && (counted <= leased <==> |providers| == 1 || counted == {})
            && (|providers| != 1 ==> leased == {})
  {
    hide EndpointIds, LiveIds, LeasedIds, JustEnded, Next;
    EndpointOfOne(states[k].live, providers, endpointId, now);
    CountsAgree(states, actions, k, EndpointKey(providers, endpointId), now);
  }

  /** A run in which they differ: one tunnel, and no provider asked for. */
  lemma EndpointCountsDiffer() returns (states: seq<System>, actions: seq<Action>)
    ensures IsRun(states, actions) && |actions| == 1
    ensures EndpointIds(states[1].live, [], "e", 0) == {"t"}
      && LeasedIds(states[1].table, EndpointKey([], "e"), 0) == {}
  {
    var tunnel := Tunnel("p", Some("e"), None, 0, 1000);
    actions := [Register("t", tunnel)];
    var s := System(Table(map[], map[]), map[], map[]);
    states := [s, Next(s, actions[0])];
    assert states[1].live == map["t" := tunnel];
    EndpointCountsAgree(states, actions, 1, [], "e", 0);
  }
}
