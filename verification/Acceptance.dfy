/** Who is let in: the credentials that authenticate, with which route and for how long,
    read off the store, over the same runs as the refusals. */
module Acceptance {
  import opened Options
  import opened Credentials
  import opened AuthorizationStore
  import Cache = AuthorizationCache

  /** The credential at (i, j) lets the key in: everything above it is ready, the token is
      its own, it has not ended, and a managed one has its own session open. */
  ghost predicate Admits(s: AuthStore, i: int, j: int, key: Cache.Key, now: int) {
    && Within(s, i, j)
    && var g := s.grants[i];
       var c := g.credentials[j];
       && g.ready && g.routeId in s.routes && s.routes[g.routeId].ready
       && key == ("pxy_" + c.id, c.token)
       && c.status != Revoked && now < c.expiresAt && (c.revokeAt.Some? ==> now < c.revokeAt.value)
       && (c.managed ==>
             c.sessionId.Some? && c.sessionId.value in s.sessions
             && s.sessions[c.sessionId.value] == SessionInfo(g.id, g.routeId, true))
  }

  /** The route a credential authenticates for. */
  ghost predicate LeadsTo(s: AuthStore, i: int, j: int, route: Cache.Route) {
    && Within(s, i, j) && s.grants[i].routeId in s.routes
    && var g := s.grants[i];
       var c := g.credentials[j];
       route == Cache.Route(g.routeId, s.routes[g.routeId].profile, g.id, c.id, c.sessionId)
  }

  // ----- What the store answers -----

  lemma {:induction false} OnlyGrant(grants: seq<Grant>, username: string, i: nat)
    requires i < |grants| && grants[i].ready && HasUsername(grants[i], username)
    requires forall k :: 0 <= k < |grants| && k != i ==> !HasUsername(grants[k], username)
    ensures FindGrant(grants, username) == Some(grants[i])
  {
    if i > 0 { OnlyGrant(grants[1..], username, i - 1); }
  }

  lemma {:induction false} OnlyCredential(credentials: seq<Credential>, key: Cache.Key, now: int, j: nat)
    requires j < |credentials| && Username(credentials[j].id) == key.0 && credentials[j].token == key.1
    requires Usable(credentials[j], now)
    requires forall k :: 0 <= k < |credentials| && k != j ==> Username(credentials[k].id) != key.0
    ensures FindCredential(credentials, key, now) == Some(credentials[j])
  {
    if j > 0 { OnlyCredential(credentials[1..], key, now, j - 1); }
  }

  /** The position of a credential is the only one with its username. */
  lemma UsernameAt(s: AuthStore, i: int, j: int, k: int, l: int)
    requires UniqueStore(s) && Within(s, i, j) && Within(s, k, l)
    requires Username(s.grants[i].credentials[j].id) == Username(s.grants[k].credentials[l].id)
    ensures i == k && j == l
  {
    UsernameInjective(s.grants[i].credentials[j].id, s.grants[k].credentials[l].id);
  }

  lemma AdmittedIsAnswered(s: AuthStore, i: int, j: int, key: Cache.Key, now: int, route: Cache.Route)
    requires UniqueStore(s) && Admits(s, i, j, key, now) && LeadsTo(s, i, j, route)
    ensures Answer(s, key, now) == Some(route)
  {
    hide UniqueStore;
    var g := s.grants[i];
    assert Username(g.credentials[j].id) == key.0;
    forall k | 0 <= k < |s.grants| && k != i ensures !HasUsername(s.grants[k], key.0) {
      if HasUsername(s.grants[k], key.0) {
        var l :| 0 <= l < |s.grants[k].credentials| && Username(s.grants[k].credentials[l].id) == key.0;
        UsernameAt(s, i, j, k, l);
        assert false;
      }
    }
    forall l | 0 <= l < |g.credentials| && l != j ensures Username(g.credentials[l].id) != key.0 {
      if Username(g.credentials[l].id) == key.0 {
        UsernameAt(s, i, j, i, l);
        assert false;
      }
    }
    OnlyGrant(s.grants, key.0, i);
    OnlyCredential(g.credentials, key, now, j);
  }

  lemma AnsweredIsAdmitted(s: AuthStore, key: Cache.Key, now: int) returns (i: int, j: int)
    requires Answer(s, key, now).Some?
    ensures Admits(s, i, j, key, now) && LeadsTo(s, i, j, Answer(s, key, now).value)
  {
    var g := FindGrant(s.grants, key.0).value;
    var c := FindCredential(g.credentials, key, now).value;
    i :| 0 <= i < |s.grants| && s.grants[i] == g;
    j :| 0 <= j < |g.credentials| && g.credentials[j] == c;
    assert key == (key.0, key.1);
  }

  /** The store answers exactly the keys of admitted credentials, each with its own route. */
  lemma AnswerIff(s: AuthStore, key: Cache.Key, now: int, route: Cache.Route)
    requires UniqueStore(s)
    ensures Answer(s, key, now) == Some(route) <==> exists i, j :: Admits(s, i, j, key, now) && LeadsTo(s, i, j, route)
  {
    hide UniqueStore, Answer, Admits, LeadsTo;
    if Answer(s, key, now) == Some(route) {
      var i, j := AnsweredIsAdmitted(s, key, now);
    }
    if exists i, j :: Admits(s, i, j, key, now) && LeadsTo(s, i, j, route) {
      var i, j :| Admits(s, i, j, key, now) && LeadsTo(s, i, j, route);
      AdmittedIsAnswered(s, i, j, key, now, route);
    }
  }

  // ----- What an authentication replies -----

  /** `pxy_` and 1 to 128 letters, digits, `_` or `-`; a token of 1 to 512 characters. */
  predicate IsKey(key: Cache.Key) {
    && |key.0| >= 5 && |key.0| <= 132 && key.0[0..4] == ['p', 'x', 'y', '_'] && 1 <= |key.1| <= 512
    && forall i :: 4 <= i < |key.0| ==>
         || 'a' <= key.0[i] <= 'z' || 'A' <= key.0[i] <= 'Z' || '0' <= key.0[i] <= '9' || key.0[i] in {'_', '-'}
  }

  lemma KeysAre(key: Cache.Key)
    ensures IsKey(key) <==> Cache.WellFormed(key)
  {
    assert |key.0| >= 4 ==> key.0[0..4] == key.0[..4];
    assert "pxy_" == ['p', 'x', 'y', '_'];
  }

  /** The cache holds nothing fresh for the key. */
  ghost predicate NothingCached(service: Cache.Service, key: Cache.Key, now: int) {
    forall e :: e in service.cache && e.key == key ==> e.expiresAt <= now
  }

  /** In every run, an authentication for which nothing fresh is cached replies with a route
      if and only if the key is well formed and a credential of the store admits it. */
  lemma AuthenticatesIff(
    states: seq<Cache.System<AuthStore>>, events: seq<Cache.Event<AuthStore>>, ops: seq<Op>, k: nat, route: Cache.Route)
    requires AuthorizationStore.IsRun(states, events, ops) && k < |events| && events[k].Authenticate?
    requires NothingCached(states[k].service, events[k].key, events[k].at)
    ensures Cache.ReplyAt(states[k], events[k], EpochOf, Answer) == Some(route)
       <==> IsKey(events[k].key)
            && exists i, j :: Admits(states[k].store, i, j, events[k].key, events[k].at)
                              && LeadsTo(states[k].store, i, j, route)
  {
    hide Answer, Admits, LeadsTo, Cache.WellFormed, IsKey, UniqueStore, Apply;
    AuthorizationStore.RunUnique(states, events, ops, k);
    KeysAre(events[k].key);
    AnswerIff(states[k].store, events[k].key, events[k].at, route);
    NothingHit(states[k].service, events[k].key, events[k].at, EpochOf(states[k].store));
  }

  lemma NothingHit(service: Cache.Service, key: Cache.Key, now: int, epoch: nat)
    requires NothingCached(service, key, now)
    ensures !Cache.Hit(Cache.Refresh(service, epoch, now), key, now)
  {
  }

  /** A route just fetched under the current epoch is served from the cache to the next
      authentication with the key for 30 s; after that the store is asked. */
  lemma CacheServes(
    states: seq<Cache.System<AuthStore>>, events: seq<Cache.Event<AuthStore>>, ops: seq<Op>, k: nat)
    requires AuthorizationStore.IsRun(states, events, ops) && k + 1 < |events|
    requires events[k].Authenticate? && events[k + 1].Authenticate? && events[k + 1].key == events[k].key
    requires NothingCached(states[k].service, events[k].key, events[k].at)
    requires Cache.ReplyAt(states[k], events[k], EpochOf, Answer).Some?
    requires states[k + 1].service.epoch == EpochOf(states[k].store)
    ensures Cache.ReplyAt(states[k + 1], events[k + 1], EpochOf, Answer)
         == if events[k + 1].at < events[k].at + 30_000 then Cache.ReplyAt(states[k], events[k], EpochOf, Answer)
            else Answer(states[k + 1].store, events[k + 1].key, events[k + 1].at)
  {
    hide Answer, Cache.WellFormed, Apply;
    var key, now, later := events[k].key, events[k].at, events[k + 1].at;
    var service, store := states[k].service, states[k].store;
    NothingHit(service, key, now, EpochOf(store));
    assert states[k + 1] == Cache.Next(states[k], events[k], EpochOf, Answer);
    var current := Cache.Refresh(service, EpochOf(store), now);
    var rest := Cache.Without(current.cache, key);
    var route := Answer(store, key, now).value;
    Inserted(rest, key, route, now);
    assert states[k + 1].service.cache == Cache.Insert(rest, key, route, now);
    assert states[k + 1].store == store;
    assert 0 <= now;
    SameEpochKeeps(states, events, ops, k);
  }

  /** An inserted entry is the one found. */
  lemma Inserted(rest: seq<Cache.Entry>, key: Cache.Key, route: Cache.Route, now: int)
    requires forall e :: e in rest ==> e.key != key
    ensures Cache.Find(Cache.Insert(rest, key, route, now), key) == Some(Cache.Entry(key, route, now + 30_000))
  {
    var kept := if |rest| >= 10_000 then rest[1..] else rest;
    LastFound(kept, Cache.Entry(key, route, now + 30_000));
  }

  lemma {:induction false} LastFound(kept: seq<Cache.Entry>, entry: Cache.Entry)
    requires forall e :: e in kept ==> e.key != entry.key
    ensures Cache.Find(kept + [entry], entry.key) == Some(entry)
  {
    if kept != [] {
      assert (kept + [entry])[1..] == kept[1..] + [entry];
      LastFound(kept[1..], entry);
    }
  }

  /** Between two neighbouring authentications the epoch is the same, so the cache is kept. */
  lemma SameEpochKeeps(
    states: seq<Cache.System<AuthStore>>, events: seq<Cache.Event<AuthStore>>, ops: seq<Op>, k: nat)
    requires AuthorizationStore.IsRun(states, events, ops) && k + 1 < |events|
    requires events[k].Authenticate? && Cache.WellFormed(events[k].key) && events[k + 1].Authenticate?
    requires states[k + 1].service.epoch == EpochOf(states[k].store)
    ensures Cache.Refresh(states[k + 1].service, EpochOf(states[k + 1].store), events[k + 1].at).cache
         == states[k + 1].service.cache
  {
    hide Answer, Cache.WellFormed, Apply;
    assert states[k + 1] == Cache.Next(states[k], events[k], EpochOf, Answer);
  }

  /** A change made through the service itself is seen by the very next authentication. */
  lemma LocalChangeIsImmediate(
    states: seq<Cache.System<AuthStore>>, events: seq<Cache.Event<AuthStore>>, ops: seq<Op>, k: nat)
    requires AuthorizationStore.IsRun(states, events, ops) && k + 1 < |events|
    requires events[k].Admin? && events[k].local && events[k + 1].Authenticate?
    ensures Cache.ReplyAt(states[k + 1], events[k + 1], EpochOf, Answer)
         == if IsKey(events[k + 1].key) then Answer(states[k + 1].store, events[k + 1].key, events[k + 1].at) else None
    ensures states[k + 1].store == Apply(states[k].store, ops[k])
  {
    hide Answer, Cache.WellFormed, IsKey, Apply;
    assert states[k + 1] == Cache.Next(states[k], events[k], EpochOf, Answer);
    KeysAre(events[k + 1].key);
  }

  // ----- Let in until ended -----

  /** The operation neither ends nor rotates the credential at (i, j), nor ends its grant,
      its route or its session. */
  predicate Spares(s: AuthStore, op: Op, i: int, j: int)
    requires Within(s, i, j)
  {
    var g := s.grants[i];
    var c := g.credentials[j];
    match op
    case ChangeGrant(id, RevokeCredential(_, credentialId)) => !(id == g.id && credentialId == c.id)
    case ChangeGrant(id, Rotate(_, previous, _, _, _)) => !(id == g.id && previous == c.id)
    case ChangeGrant(id, RevokeGrant(_)) => id != g.id
    case EndGrant(id) => id != g.id
    case RevokeRoute(id, _) => id != g.routeId
    case CloseSession(id) => !(c.managed && c.sessionId == Some(id))
    case _ => true
  }

  /** Nothing else takes admission away. */
  lemma SparedStays(s: AuthStore, op: Op, i: int, j: int, key: Cache.Key, now: int)
    requires Admits(s, i, j, key, now) && Spares(s, op, i, j)
    ensures Admits(Apply(s, op), i, j, key, now)
  {
    match op
    case ChangeGrant(id, e) => SparedByChange(s, id, e, i, j, key, now);
    case CreateGrant(_, id, _, _, _, _, _) =>
      hide Step, Changes;
      var t := Apply(s, op);
      assert t.grants[i] == s.grants[i];
    case _ => hide Step, Changes;
  }

  lemma SparedByChange(s: AuthStore, id: Id, e: Event, i: int, j: int, key: Cache.Key, now: int)
    requires Admits(s, i, j, key, now) && Spares(s, ChangeGrant(id, e), i, j)
    ensures Admits(Apply(s, ChangeGrant(id, e)), i, j, key, now)
  {
    var t := Apply(s, ChangeGrant(id, e));
    if t != s && t.grants[i] != s.grants[i] {
      StepSpares(s.grants[i], e, j);
      hide Step, Changes;
      assert t.grants[i] == Step(s.grants[i], e);
    }
  }

  lemma StepSpares(g: Grant, e: Event, j: int)
    requires 0 <= j < |g.credentials| && g.ready && !e.RevokeGrant?
    requires e.RevokeCredential? ==> e.id != g.credentials[j].id
    requires e.Rotate? ==> e.previous != g.credentials[j].id
    ensures Step(g, e).ready && Step(g, e).id == g.id && Step(g, e).routeId == g.routeId
    ensures j < |Step(g, e).credentials| && Step(g, e).credentials[j] == g.credentials[j]
  {
  }

  /** Every administrative step of the run from `a` on spares the credential. */
  ghost predicate SparedUntil(
    states: seq<Cache.System<AuthStore>>, events: seq<Cache.Event<AuthStore>>, ops: seq<Op>,
    a: nat, k: nat, i: int, j: int)
    requires |ops| == |events| && |states| == |events| + 1 && a <= k <= |events|
  {
    forall l :: a <= l < k && events[l].Admin? ==>
      Within(states[l].store, i, j) && Spares(states[l].store, ops[l], i, j)
  }

  lemma {:induction false} SparedStaysAdmitted(
    states: seq<Cache.System<AuthStore>>, events: seq<Cache.Event<AuthStore>>, ops: seq<Op>,
    a: nat, k: nat, i: int, j: int,
    key: Cache.Key, now: int)
    requires AuthorizationStore.IsRun(states, events, ops) && a <= k <= |events|
    requires SparedUntil(states, events, ops, a, k, i, j) && Admits(states[a].store, i, j, key, now)
    ensures Admits(states[k].store, i, j, key, now)
  {
    hide Apply, Spares, Admits, Answer, Within;
    if a < k {
      SparedStaysAdmitted(states, events, ops, a, k - 1, i, j, key, now);
      assert states[k] == Cache.Next(states[k - 1], events[k - 1], EpochOf, Answer);
      if events[k - 1].Admin? { SparedStays(states[k - 1].store, ops[k - 1], i, j, key, now); }
    }
  }

  /** In every run, a credential that would still be admitted at the time of an
      authentication, and that nothing has ended or rotated in between, is let in. */
  lemma SparedIsLetIn(
    states: seq<Cache.System<AuthStore>>, events: seq<Cache.Event<AuthStore>>, ops: seq<Op>,
    a: nat, k: nat, i: int, j: int)
    requires AuthorizationStore.IsRun(states, events, ops) && a <= k < |events|
    requires events[k].Authenticate? && IsKey(events[k].key)
    requires Admits(states[a].store, i, j, events[k].key, events[k].at)
    requires SparedUntil(states, events, ops, a, k, i, j)
    ensures Cache.ReplyAt(states[k], events[k], EpochOf, Answer).Some?
  {
    hide Apply, Spares, Admits, UniqueStore, Cache.WellFormed, IsKey, LeadsTo, Answer, SparedUntil;
    var store := states[k].store;
    SparedStaysAdmitted(states, events, ops, a, k, i, j, events[k].key, events[k].at);
    AuthorizationStore.RunUnique(states, events, ops, k);
    KeysAre(events[k].key);
    var route := SomeRoute(store, i, j, events[k].key, events[k].at);
    AdmittedIsAnswered(store, i, j, events[k].key, events[k].at, route);
  }

  lemma SomeRoute(s: AuthStore, i: int, j: int, key: Cache.Key, now: int) returns (route: Cache.Route)
    requires Admits(s, i, j, key, now)
    ensures LeadsTo(s, i, j, route)
  {
    var g := s.grants[i];
    route := Cache.Route(g.routeId, s.routes[g.routeId].profile, g.id, g.credentials[j].id, g.credentials[j].sessionId);
  }

  // ----- New credentials -----

  /** The session a managed credential is bound to. */
  predicate SessionOpen(s: AuthStore, managed: bool, sessionId: Option<Id>, grantId: Id, routeId: Id) {
    && (managed ==> sessionId.Some? && sessionId.value in s.sessions)
    && (managed ==> s.sessions[sessionId.value] == SessionInfo(grantId, routeId, true))
  }

  /** The credential of a new grant is admitted for 30 days. */
  lemma CreatedIsAdmitted(
    s: AuthStore, at: int, id: Id, routeId: Id, credentialId: Id, token: string, managed: bool, sessionId: Option<Id>,
      now: int)
    requires Accepts(s, CreateGrant(at, id, routeId, credentialId, token, managed, sessionId))
    requires SessionOpen(s, managed, sessionId, id, routeId) && now < at + 2_592_000_000
    ensures Admits(Apply(s, CreateGrant(at, id, routeId, credentialId, token, managed, sessionId)), |s.grants|, 0,
      ("pxy_" + credentialId, token), now)
  {
  }

  /** So is one added to a ready grant of a ready route. */
  lemma AddedIsAdmitted(
    s: AuthStore, at: int, i: nat, credentialId: Id, token: string, managed: bool, sessionId: Option<Id>, now: int)
    requires i < |s.grants| && GrantIndex(s.grants, s.grants[i].id) == Some(i) && s.grants[i].ready
    requires s.grants[i].routeId in s.routes && s.routes[s.grants[i].routeId].ready
    requires SessionOpen(s, managed, sessionId, s.grants[i].id, s.grants[i].routeId) && now < at + 2_592_000_000
    ensures Admits(Apply(s, ChangeGrant(s.grants[i].id, Add(at, credentialId, token, managed, sessionId))), i,
      |s.grants[i].credentials|, ("pxy_" + credentialId, token), now)
  {
    var op := ChangeGrant(s.grants[i].id, Add(at, credentialId, token, managed, sessionId));
    assert Apply(s, op).grants[i] == Step(s.grants[i], op.event);
  }

  /** A rotation admits the new credential for 30 days, in the mode and session of the old
      one, and the old one for 72 h at most, unless compromise was suspected. */
  lemma RotatedIsAdmitted(
    s: AuthStore, at: int, i: nat, j: nat, credentialId: Id, token: string, compromised: bool, oldKey: Cache.Key,
      now: int)
    requires UniqueStore(s) && Admits(s, i, j, oldKey, at) && GrantIndex(s.grants, s.grants[i].id) == Some(i)
    requires at <= now < at + 2_592_000_000
    ensures var old' := s.grants[i].credentials[j];
            var t := Apply(s, ChangeGrant(s.grants[i].id, Rotate(at, old'.id, credentialId, token, compromised)));
            && Admits(t, i, |s.grants[i].credentials|, ("pxy_" + credentialId, token), now)
            && (Admits(t, i, j, oldKey, now) <==> !compromised && now < old'.expiresAt && now < at + 259_200_000)
  {
    var g := s.grants[i];
    forall k, l | 0 <= k < l < |g.credentials| ensures g.credentials[k].id != g.credentials[l].id {
      assert Within(s, i, k) && Within(s, i, l);
    }
    RotatedPair(g, at, j, credentialId, token, compromised);
    hide Unique, UniqueStore, Step;
    assert Changes(g, Rotate(at, g.credentials[j].id, credentialId, token, compromised));
  }

  lemma RotatedPair(g: Grant, at: int, j: nat, credentialId: Id, token: string, compromised: bool)
    requires Unique(g.credentials) && j < |g.credentials| && g.ready && Usable(g.credentials[j], at)
    ensures var c := g.credentials[j];
            var e := Rotate(at, c.id, credentialId, token, compromised);
            var next := Step(g, e);
            && CanRotate(g, c.id, at) && next.ready && next.id == g.id && next.routeId == g.routeId
            && |next.credentials| == |g.credentials| + 1
            && next.credentials[j] == RotateOne(c, compromised, at)
            && next.credentials[|g.credentials|] == CreateCredential(credentialId, token, c.managed, c.sessionId, at)
  {
    LookupAt(g.credentials, j);
  }

  /** What an accepted operation does to routes, grants and sessions. */
  lemma AcceptedChanges(s: AuthStore, op: Op)
    requires Accepts(s, op)
    ensures var t := Apply(s, op);
            match op
            case CreateRoute(id, profile) => id in t.routes && t.routes[id] == RouteInfo(profile, true)
            case UpdateRoute(id, profile) => id in t.routes && t.routes[id] == RouteInfo(profile, true)
            case RevokeRoute(id, _) => id in t.routes && !t.routes[id].ready
            case CreateSession(id, grantId, routeId) =>
              id in t.sessions && t.sessions[id] == SessionInfo(grantId, routeId, true)
            case CloseSession(id) => id in t.sessions && !t.sessions[id].open
            case EndGrant(id) =>
              && (exists i :: 0 <= i < |t.grants| && t.grants[i].id == id && !t.grants[i].ready)
              && (forall x :: x in t.sessions && t.sessions[x].grantId == id ==> !t.sessions[x].open)
            case _ => t.routes == s.routes && t.sessions == s.sessions
  {
    if op.EndGrant? {
      var i := GrantIndex(s.grants, op.grantId).value;
      assert Apply(s, op).grants[i].id == op.grantId;
    }
  }
}
