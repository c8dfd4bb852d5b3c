/** The authorization cache in front of the credential store: least recently used
    eviction, a 30 s lifetime, and an epoch that is compared at most once a second.
    The store is any type `S` with an epoch and an answer for a key at a time. */
module AuthorizationCache {
  import opened Options

  const CACHE_TTL_MS := 30_000
  const EPOCH_REFRESH_MS := 1_000
  const MAX_ENTRIES := 10_000

  /** Username and token; the digest the source uses as key stands for the pair. */
  type Key = (string, string)

  datatype Route = Route(routeId: string, profile: string, grantId: string, credentialId: string,
    sessionId: Option<string>)

  predicate UsernameChar(c: char) {
    'a' <= c <= 'z' || 'A' <= c <= 'Z' || '0' <= c <= '9' || c == '_' || c == '-'
  }

  /** `pxy_` and 1 to 128 further characters, with a token of 1 to 512. */
  predicate WellFormed(key: Key) {
    && 5 <= |key.0| <= 132 && key.0[..4] == "pxy_"
    && (forall i :: 4 <= i < |key.0| ==> UsernameChar(key.0[i]))
    && 1 <= |key.1| <= 512
  }

  datatype Entry = Entry(key: Key, route: Route, expiresAt: int)

  /** The fields of the service; `cache` is in the insertion order of the source's Map. */
  datatype Service = Service(cache: seq<Entry>, epoch: int, refreshAt: int)

  const EMPTY_SERVICE := Service([], -1, 0)

  function Find(cache: seq<Entry>, key: Key): (r: Option<Entry>)
    ensures r.Some? ==> r.value in cache && r.value.key == key
    ensures r.None? ==> forall e :: e in cache ==> e.key != key
  {
    if cache == [] then None
    else
      assert cache == [cache[0]] + cache[1..];
      if cache[0].key == key then Some(cache[0]) else Find(cache[1..], key)
  }

  /** `Map.delete`. */
  function Without(cache: seq<Entry>, key: Key): (r: seq<Entry>)
    ensures forall e :: e in r <==> e in cache && e.key != key
    ensures |r| <= |cache|
    ensures (exists e :: e in cache && e.key == key) ==> |r| < |cache|
  {
    if cache == [] then []
    else
      assert cache == [cache[0]] + cache[1..];
      if cache[0].key == key then Without(cache[1..], key) else [cache[0]] + Without(cache[1..], key)
  }

  function Refresh(s: Service, storeEpoch: nat, now: int): Service {
    if now < s.refreshAt then s
    else Service(if s.epoch != storeEpoch then [] else s.cache, storeEpoch, now + EPOCH_REFRESH_MS)
  }

  /** Drops the oldest entry of a full cache, then appends. */
  function Insert(cache: seq<Entry>, key: Key, route: Route, now: int): seq<Entry> {
    (if |cache| >= MAX_ENTRIES then cache[1..] else cache) + [Entry(key, route, now + CACHE_TTL_MS)]
  }

  predicate Hit(s: Service, key: Key, now: int) {
    Find(s.cache, key).Some? && Find(s.cache, key).value.expiresAt > now
  }

  /** The service after one authentication, given the store's epoch and answer. */
  function Authenticated(s: Service, key: Key, now: int, storeEpoch: nat, answer: Option<Route>): Service {
    var current := Refresh(s, storeEpoch, now);
    var rest := Without(current.cache, key);
    if !WellFormed(key) then s
    else if Hit(current, key, now) then current.(cache := rest + [Find(current.cache, key).value])
    else if answer.None? then current.(cache := rest)
    else current.(cache := Insert(rest, key, answer.value, now))
  }

  function Reply(s: Service, key: Key, now: int, storeEpoch: nat, answer: Option<Route>): Option<Route> {
    var current := Refresh(s, storeEpoch, now);
    if !WellFormed(key) then None
    else if Hit(current, key, now) then Some(Find(current.cache, key).value.route) else answer
  }

  /** The cache as the source updates it in place. `storeEpoch` and `answer` are what
      the store would reply; the store is asked only where the source asks it. */
  class AuthorizationService {
    var service: Service

    constructor ()
      ensures service == EMPTY_SERVICE
    {
      service := EMPTY_SERVICE;
    }

    method RefreshAuthorizationEpoch(storeEpoch: nat, now: int)
      modifies this
      ensures service == Refresh(old(service), storeEpoch, now)
    {
      if now < service.refreshAt { return; }
      if service.epoch != storeEpoch { service := service.(cache := []); }
      service := service.(epoch := storeEpoch, refreshAt := now + EPOCH_REFRESH_MS);
    }

    method Authenticate(key: Key, now: int, storeEpoch: nat, answer: Option<Route>) returns (reply: Option<Route>)
      modifies this
      ensures service == Authenticated(old(service), key, now, storeEpoch, answer)
      ensures reply == Reply(old(service), key, now, storeEpoch, answer)
    {
      if !WellFormed(key) { return None; }
      RefreshAuthorizationEpoch(storeEpoch, now);
      var cached := Find(service.cache, key);
      if cached.Some? && cached.value.expiresAt > now {
        service := service.(cache := Without(service.cache, key));
        service := service.(cache := service.cache + [cached.value]);
        return Some(cached.value.route);
      }
      if cached.Some? { service := service.(cache := Without(service.cache, key)); }
      WithoutAbsent(service.cache, key);
      if answer.None? { return None; }
      if |service.cache| >= MAX_ENTRIES { service := service.(cache := service.cache[1..]); }
      service := service.(cache := service.cache + [Entry(key, answer.value, now + CACHE_TTL_MS)]);
      reply := answer;
    }

    method InvalidateAuthorizationCache()
      modifies this
      ensures service == EMPTY_SERVICE
    {
      service := EMPTY_SERVICE;
    }
  }

  lemma {:induction false} WithoutAbsent(cache: seq<Entry>, key: Key)
    ensures (forall e :: e in cache ==> e.key != key) ==> Without(cache, key) == cache
  {
    if cache != [] {
      assert cache == [cache[0]] + cache[1..];
      WithoutAbsent(cache[1..], key);
    }
  }

  // ----- Runs against a store -----

  datatype Event<S> =
    | Authenticate(at: int, key: Key)
    | Admin(at: int, store: S, local: bool)

  datatype System<S> = System(store: S, service: Service)

  /** An administrative step replaces the store; one made through this service also
      empties its cache. */
  function Next<S>(
    s: System<S>, event: Event<S>, epochOf: S -> nat, answer: (S, Key, int) -> Option<Route>): System<S> {
    match event
    case Authenticate(at, key) =>
      s.(service := Authenticated(s.service, key, at, epochOf(s.store), answer(s.store, key, at)))
    case Admin(_, store, local) => System(store, if local then EMPTY_SERVICE else s.service)
  }

  function ReplyAt<S>(
    s: System<S>, event: Event<S>, epochOf: S -> nat, answer: (S, Key, int) -> Option<Route>): Option<Route> {
    if event.Authenticate?
      then Reply(s.service, event.key, event.at, epochOf(s.store), answer(s.store, event.key, event.at)) else None
  }

  ghost predicate IsRun<S(!new)>(
    states: seq<System<S>>, events: seq<Event<S>>, epochOf: S -> nat, answer: (S, Key, int) -> Option<Route>) {
    && |states| == |events| + 1
    && states[0].service == EMPTY_SERVICE
    && (forall k :: 0 <= k < |events| ==> states[k + 1] == Next(states[k], events[k], epochOf, answer))
    && (forall k :: 0 <= k < |events| ==> 0 <= events[k].at)
    && (forall k :: 0 <= k < |events| ==> epochOf(states[k].store) <= epochOf(states[k + 1].store))
    && (forall i, j :: 0 <= i < j < |events| ==> events[i].at <= events[j].at)
  }

  lemma {:induction false} EpochsGrow<S(!new)>(
    states: seq<System<S>>, events: seq<Event<S>>, epochOf: S -> nat, answer: (S, Key, int) -> Option<Route>,
    i: nat, j: nat)
    requires IsRun(states, events, epochOf, answer) && i <= j <= |events|
    ensures epochOf(states[i].store) <= epochOf(states[j].store)
  {
    if i < j { EpochsGrow(states, events, epochOf, answer, i, j - 1); }
  }

  // ----- Where entries come from -----

  /** The entry holds what the store answered at step `i`. */
  ghost predicate Origin<S(!new)>(
    states: seq<System<S>>, events: seq<Event<S>>, answer: (S, Key, int) -> Option<Route>, entry: Entry, i: nat)
    requires |states| == |events| + 1
  {
    && i < |events|
    && events[i].Authenticate? && events[i].key == entry.key
    && answer(states[i].store, entry.key, events[i].at) == Some(entry.route)
    && entry.expiresAt == events[i].at + CACHE_TTL_MS
  }

  /** The service last compared epochs at step `r`. */
  ghost predicate RefreshedAt<S(!new)>(
    states: seq<System<S>>, events: seq<Event<S>>, epochOf: S -> nat, service: Service, r: nat)
    requires |states| == |events| + 1
  {
    r < |events| && service.refreshAt == events[r].at + EPOCH_REFRESH_MS && service.epoch == epochOf(states[r].store)
  }

  /** The entry stems from a step before `k`, at the epoch of the last comparison or
      after it. */
  ghost predicate Sourced<S(!new)>(
    states: seq<System<S>>, events: seq<Event<S>>, epochOf: S -> nat, answer: (S, Key, int) -> Option<Route>,
    entry: Entry, r: nat, k: nat)
    requires |states| == |events| + 1 && r < |events|
  {
    exists i: nat :: i < k && Origin(states, events, answer, entry, i)
      && (r <= i || epochOf(states[i].store) == epochOf(states[r].store))
  }

  ghost predicate Traced<S(!new)>(
    states: seq<System<S>>, events: seq<Event<S>>, epochOf: S -> nat, answer: (S, Key, int) -> Option<Route>,
    service: Service, r: nat, k: nat)
    requires |states| == |events| + 1
  {
    && r < k && RefreshedAt(states, events, epochOf, service, r)
    && (forall entry :: entry in service.cache ==> Sourced(states, events, epochOf, answer, entry, r, k))
  }

  ghost predicate Inv<S(!new)>(
    states: seq<System<S>>, events: seq<Event<S>>, epochOf: S -> nat, answer: (S, Key, int) -> Option<Route>,
    service: Service, k: nat)
    requires |states| == |events| + 1
  {
    service == EMPTY_SERVICE || exists r: nat :: Traced(states, events, epochOf, answer, service, r, k)
  }

  /** After the refresh of step `k` the last comparison is less than a second old. */
  lemma RefreshTraced<S(!new)>(
    states: seq<System<S>>, events: seq<Event<S>>, epochOf: S -> nat, answer: (S, Key, int) -> Option<Route>,
    service: Service, k: nat)
    returns (r: nat)
    requires IsRun(states, events, epochOf, answer) && k < |events|
    requires Inv(states, events, epochOf, answer, service, k)
    ensures Traced(states, events, epochOf, answer, Refresh(service, epochOf(states[k].store), events[k].at), r, k + 1)
    ensures events[k].at < events[r].at + EPOCH_REFRESH_MS
  {
    var current := Refresh(service, epochOf(states[k].store), events[k].at);
    if events[k].at < service.refreshAt {
      r :| Traced(states, events, epochOf, answer, service, r, k);
      forall entry | entry in service.cache ensures Sourced(states, events, epochOf, answer, entry, r, k + 1) {
        var i: nat :| i < k && Origin(states, events, answer, entry, i)
          && (r <= i || epochOf(states[i].store) == epochOf(states[r].store));
      }
    } else {
      r := k;
      forall entry | entry in current.cache ensures Sourced(states, events, epochOf, answer, entry, k, k + 1) {
        var earlier: nat :| Traced(states, events, epochOf, answer, service, earlier, k);
        assert Sourced(states, events, epochOf, answer, entry, earlier, k);
        var i: nat :| i < k && Origin(states, events, answer, entry, i)
          && (earlier <= i || epochOf(states[i].store) == epochOf(states[earlier].store));
        if earlier <= i { EpochsGrow(states, events, epochOf, answer, earlier, i); }
        EpochsGrow(states, events, epochOf, answer, i, k);
      }
    }
  }

  lemma StepKeeps<S(!new)>(
    states: seq<System<S>>, events: seq<Event<S>>, epochOf: S -> nat, answer: (S, Key, int) -> Option<Route>, k: nat)
    requires IsRun(states, events, epochOf, answer) && k < |events|
    requires Inv(states, events, epochOf, answer, states[k].service, k)
    ensures Inv(states, events, epochOf, answer, states[k + 1].service, k + 1)
  {
    var service := states[k].service;
    match events[k]
    case Authenticate(now, key) =>
      if !WellFormed(key) { IdleStep(states, events, epochOf, answer, service, k); return; }
      var r := RefreshTraced(states, events, epochOf, answer, service, k);
      var current := Refresh(service, epochOf(states[k].store), now);
      var next := states[k + 1].service;
      forall entry | entry in next.cache ensures Sourced(states, events, epochOf, answer, entry, r, k + 1) {
        if entry !in current.cache {
          assert Origin(states, events, answer, entry, k);
        }
      }
      assert Traced(states, events, epochOf, answer, next, r, k + 1);
    case Admin(_, _, local) =>
      if !local { IdleStep(states, events, epochOf, answer, service, k); }
  }

  /** A step that leaves the service alone leaves its trace. */
  lemma IdleStep<S(!new)>(
    states: seq<System<S>>, events: seq<Event<S>>, epochOf: S -> nat, answer: (S, Key, int) -> Option<Route>,
    service: Service, k: nat)
    requires |states| == |events| + 1 && Inv(states, events, epochOf, answer, service, k)
    ensures Inv(states, events, epochOf, answer, service, k + 1)
  {
    if service != EMPTY_SERVICE {
      var r: nat :| Traced(states, events, epochOf, answer, service, r, k);
      forall entry | entry in service.cache ensures Sourced(states, events, epochOf, answer, entry, r, k + 1) {
        var i: nat :| i < k && Origin(states, events, answer, entry, i)
          && (r <= i || epochOf(states[i].store) == epochOf(states[r].store));
      }
      assert Traced(states, events, epochOf, answer, service, r, k + 1);
    }
  }

  lemma {:induction false} RunKeeps<S(!new)>(
    states: seq<System<S>>, events: seq<Event<S>>, epochOf: S -> nat, answer: (S, Key, int) -> Option<Route>, k: nat)
    requires IsRun(states, events, epochOf, answer) && k <= |events|
    ensures Inv(states, events, epochOf, answer, states[k].service, k)
  {
    if k > 0 {
      RunKeeps(states, events, epochOf, answer, k - 1);
      StepKeeps(states, events, epochOf, answer, k - 1);
    }
  }

  // ----- Freshness -----

  /** Step `i` asked the store for the same key less than 30 s before, got the reply, and
      no change of epoch falls between it and one second before step `k`. */
  ghost predicate FreshSource<S(!new)>(
    states: seq<System<S>>, events: seq<Event<S>>, epochOf: S -> nat, answer: (S, Key, int) -> Option<Route>, k: nat,
    route: Route, i: nat)
    requires |states| == |events| + 1 && k < |events|
  {
    && i <= k
    && events[i].Authenticate? && events[k].Authenticate? && events[i].key == events[k].key
    && events[k].at - 30_000 < events[i].at <= events[k].at
    && answer(states[i].store, events[i].key, events[i].at) == Some(route)
    && (forall j :: i <= j < k && events[j].at <= events[k].at - 1_000 ==>
         epochOf(states[j + 1].store) == epochOf(states[i].store))
  }

  /** Every successful reply is what the store answered at a fresh source. */
  lemma RepliesAreFresh<S(!new)>(
    states: seq<System<S>>, events: seq<Event<S>>, epochOf: S -> nat, answer: (S, Key, int) -> Option<Route>, k: nat)
    returns (i: nat)
    requires IsRun(states, events, epochOf, answer) && k < |events|
    requires ReplyAt(states[k], events[k], epochOf, answer).Some?
    ensures FreshSource(states, events, epochOf, answer, k, ReplyAt(states[k], events[k], epochOf, answer).value, i)
  {
    hide WellFormed, Inv, FreshSource;
    RunKeeps(states, events, epochOf, answer, k);
    var service, now := states[k].service, events[k].at;
    var current := Refresh(service, epochOf(states[k].store), now);
    if Hit(current, events[k].key, now) {
      i := HitIsFresh(states, events, epochOf, answer, k);
    } else {
      i := k;
      MissIsFresh(states, events, epochOf, answer, k);
    }
  }

  lemma MissIsFresh<S(!new)>(
    states: seq<System<S>>, events: seq<Event<S>>, epochOf: S -> nat, answer: (S, Key, int) -> Option<Route>, k: nat)
    requires IsRun(states, events, epochOf, answer) && k < |events| && events[k].Authenticate?
    requires !Hit(Refresh(states[k].service, epochOf(states[k].store), events[k].at), events[k].key, events[k].at)
    requires ReplyAt(states[k], events[k], epochOf, answer).Some?
    ensures FreshSource(states, events, epochOf, answer, k, ReplyAt(states[k], events[k], epochOf, answer).value, k)
  {
  }

  /** A cached reply goes back to the step that asked the store for it. */
  lemma HitIsFresh<S(!new)>(
    states: seq<System<S>>, events: seq<Event<S>>, epochOf: S -> nat, answer: (S, Key, int) -> Option<Route>, k: nat)
    returns (i: nat)
    requires IsRun(states, events, epochOf, answer) && k < |events| && events[k].Authenticate?
    requires Inv(states, events, epochOf, answer, states[k].service, k)
    requires Hit(Refresh(states[k].service, epochOf(states[k].store), events[k].at), events[k].key, events[k].at)
    requires ReplyAt(states[k], events[k], epochOf, answer).Some?
    ensures FreshSource(states, events, epochOf, answer, k, ReplyAt(states[k], events[k], epochOf, answer).value, i)
  {
    hide WellFormed;
    var service, now := states[k].service, events[k].at;
    var current := Refresh(service, epochOf(states[k].store), now);
    var r := RefreshTraced(states, events, epochOf, answer, service, k);
    var entry := Find(current.cache, events[k].key).value;
    assert Sourced(states, events, epochOf, answer, entry, r, k + 1);
    i :| i < k + 1 && Origin(states, events, answer, entry, i)
      && (r <= i || epochOf(states[i].store) == epochOf(states[r].store));
    SameEpochBefore(states, events, epochOf, answer, i, r, k);
  }

  /** No change of epoch before the last comparison, if the epoch was the same at both ends. */
  lemma SameEpochBefore<S(!new)>(
    states: seq<System<S>>, events: seq<Event<S>>, epochOf: S -> nat, answer: (S, Key, int) -> Option<Route>,
    i: nat, r: nat, k: nat)
    requires IsRun(states, events, epochOf, answer) && i <= k < |events| && r <= k
    requires r <= i || epochOf(states[i].store) == epochOf(states[r].store)
    requires events[k].at < events[r].at + EPOCH_REFRESH_MS
    ensures forall j :: i <= j < k && events[j].at <= events[k].at - EPOCH_REFRESH_MS ==>
      epochOf(states[j + 1].store) == epochOf(states[i].store)
  {
    forall j | i <= j < k && events[j].at <= events[k].at - EPOCH_REFRESH_MS
      ensures epochOf(states[j + 1].store) == epochOf(states[i].store)
    {
      assert j < r;
      EpochsGrow(states, events, epochOf, answer, i, j + 1);
      EpochsGrow(states, events, epochOf, answer, j + 1, r);
    }
  }

  /** The key is refused by the store, now and after every later step. */
  ghost predicate DeadFrom<S(!new)>(
    states: seq<System<S>>, events: seq<Event<S>>, answer: (S, Key, int) -> Option<Route>, key: Key, a: nat)
    requires |states| == |events| + 1
  {
    forall i :: a < i < |events| ==> answer(states[i].store, key, events[i].at).None?
  }

  /** A revocation that raises the epoch takes effect within one second: from then on
      every authentication with the key is refused. */
  lemma RevocationTakesEffect<S(!new)>(
    states: seq<System<S>>, events: seq<Event<S>>, epochOf: S -> nat, answer: (S, Key, int) -> Option<Route>, key: Key,
    a: nat, k: nat)
    requires IsRun(states, events, epochOf, answer) && a < k < |events|
    requires epochOf(states[a].store) < epochOf(states[a + 1].store)
    requires DeadFrom(states, events, answer, key, a)
    requires events[k].Authenticate? && events[k].key == key && events[a].at + 1_000 <= events[k].at
    ensures ReplyAt(states[k], events[k], epochOf, answer).None?
  {
    if ReplyAt(states[k], events[k], epochOf, answer).Some? {
      var i := RepliesAreFresh(states, events, epochOf, answer, k);
      if i <= a { EpochsGrow(states, events, epochOf, answer, i, a); }
    }
  }

  // ----- Size and order -----

  /** The last step before `k` that authenticated the key successfully, or -1. */
  ghost function LastUse<S(!new)>(
    states: seq<System<S>>, events: seq<Event<S>>, epochOf: S -> nat, answer: (S, Key, int) -> Option<Route>, k: nat,
    key: Key): int
    requires |states| == |events| + 1 && k <= |events|
  {
    if k == 0 then -1
    else if events[k - 1].Authenticate? && events[k - 1].key == key
      && ReplyAt(states[k - 1], events[k - 1], epochOf, answer).Some? then k - 1
    else LastUse(states, events, epochOf, answer, k - 1, key)
  }

  lemma {:induction false} LastUseBefore<S(!new)>(
    states: seq<System<S>>, events: seq<Event<S>>, epochOf: S -> nat, answer: (S, Key, int) -> Option<Route>, k: nat,
    key: Key)
    requires |states| == |events| + 1 && k <= |events|
    ensures LastUse(states, events, epochOf, answer, k, key) < k
  {
    if k > 0 { LastUseBefore(states, events, epochOf, answer, k - 1, key); }
  }

  ghost function UseOrder<S(!new)>(
    states: seq<System<S>>, events: seq<Event<S>>, epochOf: S -> nat, answer: (S, Key, int) -> Option<Route>,
    k: nat): Key -> int
    requires |states| == |events| + 1 && k <= |events|
  {
    key => LastUse(states, events, epochOf, answer, k, key)
  }

  ghost predicate OrderedBy(cache: seq<Entry>, rank: Key -> int) {
    forall i, j :: 0 <= i < j < |cache| ==> rank(cache[i].key) < rank(cache[j].key)
  }

  /** Entries stand in the order of their last use. */
  ghost predicate ByRecency<S(!new)>(
    states: seq<System<S>>, events: seq<Event<S>>, epochOf: S -> nat, answer: (S, Key, int) -> Option<Route>,
    cache: seq<Entry>, k: nat)
    requires |states| == |events| + 1 && k <= |events|
  {
    OrderedBy(cache, UseOrder(states, events, epochOf, answer, k))
  }

  lemma {:induction false} WithoutOrdered(cache: seq<Entry>, key: Key, rank: Key -> int)
    requires OrderedBy(cache, rank)
    ensures OrderedBy(Without(cache, key), rank)
  {
    if cache != [] {
      WithoutOrdered(cache[1..], key, rank);
      forall e | e in cache[1..] ensures rank(cache[0].key) < rank(e.key) { }
    }
  }

  lemma WithoutKeepsOrder<S(!new)>(
    states: seq<System<S>>, events: seq<Event<S>>, epochOf: S -> nat, answer: (S, Key, int) -> Option<Route>,
    cache: seq<Entry>, key: Key, k: nat)
    requires |states| == |events| + 1 && k <= |events|
    requires ByRecency(states, events, epochOf, answer, cache, k)
    ensures ByRecency(states, events, epochOf, answer, Without(cache, key), k)
  {
    WithoutOrdered(cache, key, UseOrder(states, events, epochOf, answer, k));
  }

  /** Using one key leaves the order of the others and puts that key last. */
  lemma UseKeepsOrder<S(!new)>(
    states: seq<System<S>>, events: seq<Event<S>>, epochOf: S -> nat, answer: (S, Key, int) -> Option<Route>,
    rest: seq<Entry>, entry: Entry, k: nat)
    requires |states| == |events| + 1 && k < |events|
    requires ByRecency(states, events, epochOf, answer, rest, k)
    requires events[k].Authenticate? && events[k].key == entry.key
      && ReplyAt(states[k], events[k], epochOf, answer).Some?
    requires forall e :: e in rest ==> e.key != entry.key
    ensures ByRecency(states, events, epochOf, answer, rest + [entry], k + 1)
  {
    forall e | e in rest
      ensures LastUse(states, events, epochOf, answer, k + 1, e.key)
        == LastUse(states, events, epochOf, answer, k, e.key) < k
    {
      LastUseBefore(states, events, epochOf, answer, k, e.key);
    }
    assert LastUse(states, events, epochOf, answer, k + 1, entry.key) == k;
  }

  lemma NoUseKeepsOrder<S(!new)>(
    states: seq<System<S>>, events: seq<Event<S>>, epochOf: S -> nat, answer: (S, Key, int) -> Option<Route>,
    cache: seq<Entry>, k: nat)
    requires |states| == |events| + 1 && k < |events|
    requires ByRecency(states, events, epochOf, answer, cache, k)
    requires ReplyAt(states[k], events[k], epochOf, answer).None?
    ensures ByRecency(states, events, epochOf, answer, cache, k + 1)
  {
    var before, after := UseOrder(states, events, epochOf, answer, k), UseOrder(states, events, epochOf, answer, k + 1);
    forall key ensures after(key) == before(key) { }
  }

  lemma TailKeepsOrder<S(!new)>(
    states: seq<System<S>>, events: seq<Event<S>>, epochOf: S -> nat, answer: (S, Key, int) -> Option<Route>,
    cache: seq<Entry>, k: nat)
    requires |states| == |events| + 1 && k <= |events| && cache != []
    requires ByRecency(states, events, epochOf, answer, cache, k)
    ensures ByRecency(states, events, epochOf, answer, cache[1..], k)
  {
    hide UseOrder;
  }

  lemma OrderAfterUse<S(!new)>(
    states: seq<System<S>>, events: seq<Event<S>>, epochOf: S -> nat, answer: (S, Key, int) -> Option<Route>,
    current: Service, k: nat)
    requires |states| == |events| + 1 && k < |events| && events[k].Authenticate? && WellFormed(events[k].key)
    requires current == Refresh(states[k].service, epochOf(states[k].store), events[k].at)
    requires |current.cache| <= MAX_ENTRIES && ByRecency(states, events, epochOf, answer, current.cache, k)
    requires states[k + 1] == Next(states[k], events[k], epochOf, answer)
    ensures |states[k + 1].service.cache| <= MAX_ENTRIES
      && ByRecency(states, events, epochOf, answer, states[k + 1].service.cache, k + 1)
  {
    hide LastUse, UseOrder, WellFormed, ByRecency, OrderedBy;
    var key, now := events[k].key, events[k].at;
    var rest := Without(current.cache, key);
    WithoutKeepsOrder(states, events, epochOf, answer, current.cache, key, k);
    var reply := ReplyAt(states[k], events[k], epochOf, answer);
    if reply.None? {
      NoUseKeepsOrder(states, events, epochOf, answer, rest, k);
    } else if Hit(current, key, now) {
      UseKeepsOrder(states, events, epochOf, answer, rest, Find(current.cache, key).value, k);
    } else {
      var kept := if |rest| >= MAX_ENTRIES then rest[1..] else rest;
      if |rest| >= MAX_ENTRIES { TailKeepsOrder(states, events, epochOf, answer, rest, k); }
      UseKeepsOrder(states, events, epochOf, answer, kept, Entry(key, reply.value, now + CACHE_TTL_MS), k);
    }
  }

  lemma OrderStep<S(!new)>(
    states: seq<System<S>>, events: seq<Event<S>>, epochOf: S -> nat, answer: (S, Key, int) -> Option<Route>, k: nat)
    requires IsRun(states, events, epochOf, answer) && k < |events|
    requires |states[k].service.cache| <= MAX_ENTRIES
      && ByRecency(states, events, epochOf, answer, states[k].service.cache, k)
    ensures |states[k + 1].service.cache| <= MAX_ENTRIES
      && ByRecency(states, events, epochOf, answer, states[k + 1].service.cache, k + 1)
  {
    hide LastUse, UseOrder, WellFormed;
    if events[k].Authenticate? && WellFormed(events[k].key) {
      var current := Refresh(states[k].service, epochOf(states[k].store), events[k].at);
      OrderAfterUse(states, events, epochOf, answer, current, k);
    } else {
      NoUseKeepsOrder(states, events, epochOf, answer, states[k + 1].service.cache, k);
    }
  }

  /** In every run the cache holds at most 10,000 entries, least recently used first. */
  lemma {:induction false} CacheIsBoundedAndOrdered<S(!new)>(
    states: seq<System<S>>, events: seq<Event<S>>, epochOf: S -> nat, answer: (S, Key, int) -> Option<Route>, k: nat)
    requires IsRun(states, events, epochOf, answer) && k <= |events|
    ensures |states[k].service.cache| <= 10_000
    ensures ByRecency(states, events, epochOf, answer, states[k].service.cache, k)
  {
    if k > 0 {
      CacheIsBoundedAndOrdered(states, events, epochOf, answer, k - 1);
      OrderStep(states, events, epochOf, answer, k - 1);
    }
  }

  /** The entry an insertion pushes out is the least recently used one. */
  lemma EvictsLeastRecent<S(!new)>(
    states: seq<System<S>>, events: seq<Event<S>>, epochOf: S -> nat, answer: (S, Key, int) -> Option<Route>, k: nat,
    gone: Entry, kept: Entry)
    requires IsRun(states, events, epochOf, answer) && k < |events| && events[k].Authenticate?
    requires var current := Refresh(states[k].service, epochOf(states[k].store), events[k].at);
             gone in current.cache && kept in current.cache
    requires gone.key != events[k].key && kept.key != events[k].key
    requires gone !in states[k + 1].service.cache && kept in states[k + 1].service.cache
    ensures LastUse(states, events, epochOf, answer, k, gone.key)
      < LastUse(states, events, epochOf, answer, k, kept.key)
  {
    hide WellFormed, LastUse;
    CacheIsBoundedAndOrdered(states, events, epochOf, answer, k);
    var current := Refresh(states[k].service, epochOf(states[k].store), events[k].at);
    var rest := Without(current.cache, events[k].key);
    WithoutKeepsOrder(states, events, epochOf, answer, current.cache, events[k].key, k);
    assert gone in rest && kept in rest;
    assert gone == rest[0];
    var j :| 0 <= j < |rest| && rest[j] == kept;
  }
}
