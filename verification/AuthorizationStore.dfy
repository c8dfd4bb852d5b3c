/** The routes, grants and sessions behind the authorization cache, and the guarantee
    that a revocation reaches every authentication within a second. */
module AuthorizationStore {
  import opened Options
  import opened Credentials
  import Cache = AuthorizationCache

  datatype RouteInfo = RouteInfo(profile: string, ready: bool)
  datatype SessionInfo = SessionInfo(grantId: Id, routeId: Id, open: bool)

  /** `grants` is in the insertion order of the source's Map. */
  datatype AuthStore = AuthStore(routes: map<Id, RouteInfo>, grants: seq<Grant>, sessions: map<Id, SessionInfo>,
    epoch: nat)

  const EMPTY_STORE := AuthStore(map[], [], map[], 0)

  function Username(id: Id): string { "pxy_" + id }

  // ----- What the store answers -----

  predicate HasUsername(g: Grant, username: string) {
    exists i :: 0 <= i < |g.credentials| && Username(g.credentials[i].id) == username
  }

  function FindGrant(grants: seq<Grant>, username: string): (r: Option<Grant>)
    ensures r.Some? ==> r.value in grants && r.value.ready
  {
    if grants == [] then None
    else if grants[0].ready && HasUsername(grants[0], username) then Some(grants[0])
    else FindGrant(grants[1..], username)
  }

  function FindCredential(credentials: seq<Credential>, key: Cache.Key, now: int): (r: Option<Credential>)
    ensures r.Some? ==> r.value in credentials && Username(r.value.id) == key.0 && r.value.token == key.1
    ensures r.Some? ==> Usable(r.value, now)
  {
    if credentials == [] then None
    else if Username(credentials[0].id) == key.0 && Usable(credentials[0], now) && credentials[0].token == key.1
      then Some(credentials[0])
    else FindCredential(credentials[1..], key, now)
  }

  predicate SessionAdmits(s: AuthStore, g: Grant, c: Credential) {
    !c.managed || (c.sessionId.Some? && c.sessionId.value in s.sessions
                   && s.sessions[c.sessionId.value] == SessionInfo(g.id, g.routeId, true))
  }

  /** The outcome of the store lookup and the session check of `authenticate`. */
  function Answer(s: AuthStore, key: Cache.Key, now: int): Option<Cache.Route> {
    var grant := FindGrant(s.grants, key.0);
    if grant.None? || grant.value.routeId !in s.routes || !s.routes[grant.value.routeId].ready then None
    else
      var g := grant.value;
      var credential := FindCredential(g.credentials, key, now);
      if credential.None? || !SessionAdmits(s, g, credential.value) then None
      else Some(Cache.Route(g.routeId, s.routes[g.routeId].profile, g.id, credential.value.id,
        credential.value.sessionId))
  }

  function EpochOf(s: AuthStore): nat { s.epoch }

  // ----- Administrative operations -----

  datatype Op =
    | CreateRoute(routeId: Id, profile: string)
    | UpdateRoute(routeId: Id, profile: string)
    | RevokeRoute(routeId: Id, terminateActive: bool)
    | CreateGrant(at: int, grantId: Id, routeId: Id, credentialId: Id, token: string, managed: bool,
      sessionId: Option<Id>)
    | ChangeGrant(grantId: Id, event: Event)
    | EndGrant(grantId: Id)
    | CreateSession(sessionId': Id, ofGrant: Id, ofRoute: Id)
    | CloseSession(sessionId': Id)

  function GrantIndex(grants: seq<Grant>, id: Id): (r: Option<nat>)
    ensures r.Some? ==> r.value < |grants| && grants[r.value].id == id
    ensures r.None? ==> forall g :: g in grants ==> g.id != id
  {
    if grants == [] then None
    else if grants[0].id == id then Some(0)
    else
      var rest := GrantIndex(grants[1..], id);
      if rest.None? then assert forall g :: g in grants ==>
        g == grants[0] || g in grants[1..]; None else Some(rest.value + 1)
  }

  /** The operation goes through and raises the epoch. */
  predicate Changes(g: Grant, e: Event) {
    match e
    case Add(_, _, _, _, _) => g.ready
    case Rotate(now, previous, _, _, _) => CanRotate(g, previous, now)
    case RevokeCredential(_, id) => Lookup(g.credentials, id).Some? && Lookup(g.credentials, id).value.status != Revoked
    case RevokeGrant(_) => false
  }

  function OpenSessionsOf(s: AuthStore, grantId: Id): set<Id> {
    set x | x in s.sessions && s.sessions[x].grantId == grantId && s.sessions[x].open
  }

  function WithClosed(sessions: map<Id, SessionInfo>, closing: set<Id>): map<Id, SessionInfo> {
    map x | x in sessions :: if x in closing then sessions[x].(open := false) else sessions[x]
  }

  function Apply(s: AuthStore, op: Op): AuthStore {
    match op
    case CreateRoute(id, profile) =>
      if id in s.routes then s else s.(routes := s.routes[id := RouteInfo(profile, true)], epoch := s.epoch + 1)
    case UpdateRoute(id, profile) =>
      if id in s.routes && s.routes[id].ready
        then s.(routes := s.routes[id := RouteInfo(profile, true)], epoch := s.epoch + 1) else s
    case RevokeRoute(id, terminateActive) =>
      if id !in s.routes || (!s.routes[id].ready && !terminateActive) then s
      else s.(routes := s.routes[id := s.routes[id].(ready := false)], epoch := s.epoch + 1)
    case CreateGrant(now, id, routeId, credentialId, token, managed, sessionId) =>
      if routeId !in s.routes || !s.routes[routeId].ready || GrantIndex(s.grants, id).Some? then s
      else s.(grants := s.grants
        + [Grant(id, routeId, [CreateCredential(credentialId, token, managed, sessionId, now)], true)])
    case ChangeGrant(id, e) =>
      var i := GrantIndex(s.grants, id);
      if i.None? || !Changes(s.grants[i.value], e) then s
      else s.(grants := s.grants[i.value := Step(s.grants[i.value], e)], epoch := s.epoch + 1)
    case EndGrant(id) =>
      var i := GrantIndex(s.grants, id);
      if i.None? then s
      else
        var closing := OpenSessionsOf(s, id);
        s.(
          grants := s.grants[i.value := s.grants[i.value].(ready := false)],
          sessions := WithClosed(s.sessions, closing),
          epoch := s.epoch + |closing| + 1)
    case CreateSession(id, grantId, routeId) =>
      if id in s.sessions then s else s.(sessions := s.sessions[id := SessionInfo(grantId, routeId, true)])
    case CloseSession(id) =>
      if id !in s.sessions || !s.sessions[id].open then s
      else s.(sessions := s.sessions[id := s.sessions[id].(open := false)], epoch := s.epoch + 1)
  }

  /** Whether the source carries the operation out, or throws. */
  predicate Accepts(s: AuthStore, op: Op) {
    match op
    case CreateRoute(id, _) => id !in s.routes
    case UpdateRoute(id, _) => id in s.routes && s.routes[id].ready
    case RevokeRoute(id, terminateActive) => id in s.routes && (s.routes[id].ready || terminateActive)
    case CreateGrant(_, id, routeId, _, _, _, _) => routeId in s.routes && s.routes[routeId].ready
      && GrantIndex(s.grants, id).None?
    case ChangeGrant(id, e) =>
      var i := GrantIndex(s.grants, id);
      i.Some? && (if e.RevokeCredential? then Lookup(s.grants[i.value].credentials, e.id).Some?
        else Changes(s.grants[i.value], e))
    case EndGrant(id) => GrantIndex(s.grants, id).Some?
    case CreateSession(id, _, _) => id !in s.sessions
    case CloseSession(id) => id in s.sessions
  }

  /** What the source throws for changes nothing. */
  lemma RejectedChangesNothing(s: AuthStore, op: Op)
    ensures !Accepts(s, op) ==> Apply(s, op) == s
  {
  }

  // ----- The in-memory store -----

  /** The loop of `rotateAccessGrantCredential` over the credentials of the grant. */
  method RotateMatching(
    credentials: seq<Credential>, id: Id, compromised: bool, now: int) returns (rotated: seq<Credential>)
    ensures rotated == RotateAll(credentials, id, compromised, now)
  {
    rotated := credentials;
    for i := 0 to |credentials|
      invariant |rotated| == |credentials|
      invariant forall k :: 0 <= k < i ==> rotated[k] == RotateAll(credentials, id, compromised, now)[k]
      invariant forall k :: i <= k < |rotated| ==> rotated[k] == credentials[k]
    {
      var credential := rotated[i];
      if credential.id == id && Usable(credential, now) {
        if compromised {
          rotated := rotated[i := credential.(status := Revoked, revokeAt := Some(now))];
        } else {
          var limit := now + OVERLAP_MS;
          rotated := rotated[i :=
            credential.(status := Overlap,
              revokeAt := Some(if credential.expiresAt < limit then credential.expiresAt else limit))];
        }
      }
    }
  }

  class InMemoryRouteStore {
    var routes: map<Id, RouteInfo>
    var grants: seq<Grant>
    var sessions: map<Id, SessionInfo>
    var authorizationEpoch: nat

    ghost function State(): AuthStore
      reads this
    {
      AuthStore(routes, grants, sessions, authorizationEpoch)
    }

    constructor ()
      ensures State() == EMPTY_STORE
    {
      routes, grants, sessions, authorizationEpoch := map[], [], map[], 0;
    }

    method Create(id: Id, profile: string) returns (ok: bool)
      modifies this
      ensures State() == Apply(old(State()), CreateRoute(id, profile))
      ensures ok <==> Accepts(old(State()), CreateRoute(id, profile))
    {
      if id in routes { return false; }
      routes := routes[id := RouteInfo(profile, true)];
      authorizationEpoch := authorizationEpoch + 1;
      ok := true;
    }

    method Update(id: Id, profile: string) returns (ok: bool)
      modifies this
      ensures State() == Apply(old(State()), UpdateRoute(id, profile))
      ensures ok <==> Accepts(old(State()), UpdateRoute(id, profile))
    {
      if id !in routes || !routes[id].ready { return false; }
      routes := routes[id := routes[id].(profile := profile, ready := true)];
      authorizationEpoch := authorizationEpoch + 1;
      ok := true;
    }

    method Revoke(id: Id, terminateActive: bool) returns (ok: bool)
      modifies this
      ensures State() == Apply(old(State()), RevokeRoute(id, terminateActive))
      ensures ok <==> Accepts(old(State()), RevokeRoute(id, terminateActive))
    {
      if id !in routes || (!routes[id].ready && !terminateActive) { return false; }
      routes := routes[id := routes[id].(ready := false)];
      authorizationEpoch := authorizationEpoch + 1;
      ok := true;
    }

    method CreateAccessGrant(
      now: int, id: Id, routeId: Id, credentialId: Id, token: string, managed: bool, sessionId: Option<Id>)
      returns (ok: bool)
      modifies this
      ensures State() == Apply(old(State()), CreateGrant(now, id, routeId, credentialId, token, managed, sessionId))
      ensures ok <==> Accepts(old(State()), CreateGrant(now, id, routeId, credentialId, token, managed, sessionId))
    {
      if routeId !in routes || !routes[routeId].ready { return false; }
      if GrantIndex(grants, id).Some? { return false; }
      grants := grants + [Grant(id, routeId, [CreateCredential(credentialId, token, managed, sessionId, now)], true)];
      ok := true;
    }

    method AddAccessGrantCredential(
      now: int, id: Id, credentialId: Id, token: string, managed: bool, sessionId: Option<Id>)
      returns (ok: bool)
      modifies this
      ensures State() == Apply(old(State()), ChangeGrant(id, Add(now, credentialId, token, managed, sessionId)))
      ensures ok <==> Accepts(old(State()), ChangeGrant(id, Add(now, credentialId, token, managed, sessionId)))
    {
      var index := GrantIndex(grants, id);
      if index.None? || !grants[index.value].ready { return false; }
      var grant := grants[index.value];
      grants := grants[index.value :=
        grant.(credentials := grant.credentials + [CreateCredential(credentialId, token, managed, sessionId, now)])];
      authorizationEpoch := authorizationEpoch + 1;
      ok := true;
    }

    method RotateAccessGrantCredential(
      now: int, id: Id, previousId: Id, credentialId: Id, token: string, compromised: bool)
      returns (ok: bool)
      modifies this
      ensures State() == Apply(old(State()), ChangeGrant(id, Rotate(now, previousId, credentialId, token, compromised)))
      ensures ok <==> Accepts(old(State()), ChangeGrant(id, Rotate(now, previousId, credentialId, token, compromised)))
    {
      var index := GrantIndex(grants, id);
      if index.None? || !grants[index.value].ready { return false; }
      var grant := grants[index.value];
      var previous := Lookup(grant.credentials, previousId);
      if previous.None? || !Usable(previous.value, now) { return false; }
      var rotated := RotateMatching(grant.credentials, previousId, compromised, now);
      var created := CreateCredential(credentialId, token, previous.value.managed, previous.value.sessionId, now);
      grants := grants[index.value := grant.(credentials := rotated + [created])];
      authorizationEpoch := authorizationEpoch + 1;
      ok := true;
    }

    method RevokeAccessGrantCredential(now: int, id: Id, credentialId: Id) returns (ok: bool)
      modifies this
      ensures State() == Apply(old(State()), ChangeGrant(id, RevokeCredential(now, credentialId)))
      ensures ok <==> Accepts(old(State()), ChangeGrant(id, RevokeCredential(now, credentialId)))
    {
      hide CanRotate, RotateAll, RevokeFirst;
      var index := GrantIndex(grants, id);
      if index.None? { return false; }
      var grant := grants[index.value];
      var credential := Lookup(grant.credentials, credentialId);
      if credential.None? { return false; }
      if credential.value.status == Revoked { return true; }
      grants := grants[index.value := grant.(credentials := RevokeFirst(grant.credentials, credentialId, now))];
      authorizationEpoch := authorizationEpoch + 1;
      ok := true;
    }

    method CloseLogicalSession(id: Id) returns (ok: bool)
      modifies this`sessions, this`authorizationEpoch
      ensures State() == Apply(old(State()), CloseSession(id))
      ensures ok <==> Accepts(old(State()), CloseSession(id))
    {
      if id !in sessions { return false; }
      if !sessions[id].open { return true; }
      sessions := sessions[id := sessions[id].(open := false)];
      authorizationEpoch := authorizationEpoch + 1;
      ok := true;
    }

    /** Closes the open sessions of a grant, one by one. */
    method CloseLogicalSessions(grantId: Id)
      modifies this`sessions, this`authorizationEpoch
      ensures var closing := OpenSessionsOf(old(State()), grantId);
              && sessions == WithClosed(old(sessions), closing)
              && authorizationEpoch == old(authorizationEpoch) + |closing|
    {
      var closing := OpenSessionsOf(AuthStore(routes, grants, sessions, authorizationEpoch), grantId);
      var rest := closing;
      while rest != {}
        invariant rest <= closing
        invariant sessions == WithClosed(old(sessions), closing - rest)
        invariant authorizationEpoch + |rest| == old(authorizationEpoch) + |closing|
        decreases rest
      {
        var x :| x in rest;
        var _ := CloseLogicalSession(x);
        rest := rest - {x};
      }
      assert closing - rest == closing;
    }

    method RevokeAccessGrant(id: Id) returns (ok: bool)
      modifies this
      ensures State() == Apply(old(State()), EndGrant(id))
      ensures ok <==> Accepts(old(State()), EndGrant(id))
    {
      hide Step, Changes, CanRotate;
      var index := GrantIndex(grants, id);
      if index.None? { return false; }
      grants := grants[index.value := grants[index.value].(ready := false)];
      CloseLogicalSessions(id);
      authorizationEpoch := authorizationEpoch + 1;
      ok := true;
    }
  }

  /** No operation lowers the epoch. */
  lemma EpochNeverFalls(s: AuthStore, op: Op)
    ensures s.epoch <= Apply(s, op).epoch
  {
  }

  // ----- Credential ids -----

  /** The id of the credential an operation would create. */
  function CreatedId(op: Op): Option<Id> {
    match op
    case CreateGrant(_, _, _, credentialId, _, _, _) => Some(credentialId)
    case ChangeGrant(_, Add(_, id, _, _, _)) => Some(id)
    case ChangeGrant(_, Rotate(_, _, id, _, _)) => Some(id)
    case _ => None
  }

  ghost predicate HasCredential(s: AuthStore, id: Id) {
    exists i, j :: 0 <= i < |s.grants| && 0 <= j < |s.grants[i].credentials| && s.grants[i].credentials[j].id == id
  }

  /** Credentials are created under ids the store does not hold. */
  ghost predicate NewIds(s: AuthStore, op: Op) {
    CreatedId(op).Some? ==> !HasCredential(s, CreatedId(op).value)
  }

  /** There is a credential at position (i, j). */
  predicate Within(s: AuthStore, i: int, j: int) {
    0 <= i < |s.grants| && 0 <= j < |s.grants[i].credentials|
  }

  /** No two credentials of the store share an id. */
  ghost predicate UniqueStore(s: AuthStore) {
    forall i, j, k, l :: Within(s, i, j) && Within(s, k, l) ==>
      (s.grants[i].credentials[j].id == s.grants[k].credentials[l].id ==> i == k && j == l)
  }

  /** How a step changes the credentials of one grant: in place, keeping ids and session,
      never undoing a revocation, and possibly adding one. */
  ghost predicate Extends(before: seq<Credential>, after: seq<Credential>, created: Option<Id>) {
    && |before| <= |after| <= |before| + 1
    && (forall i :: 0 <= i < |before| ==>
          && after[i].id == before[i].id && after[i].managed == before[i].managed
            && after[i].sessionId == before[i].sessionId
          && (before[i].status == Revoked ==> after[i].status == Revoked))
    && (|after| == |before| + 1 ==> created == Some(after[|before|].id))
  }

  lemma StepExtends(g: Grant, e: Event)
    ensures Extends(g.credentials, Step(g, e).credentials, CreatedId(ChangeGrant(g.id, e)))
    ensures Step(g, e).id == g.id && Step(g, e).routeId == g.routeId && (Step(g, e).ready ==> g.ready)
  {
  }

  /** The grants after an operation: each extended in place, at most one added. */
  ghost predicate GrantsExtend(before: seq<Grant>, after: seq<Grant>, created: Option<Id>) {
    && |before| <= |after| <= |before| + 1
    && (forall i :: 0 <= i < |before| ==>
          && Extends(before[i].credentials, after[i].credentials, created)
          && after[i].id == before[i].id && after[i].routeId == before[i].routeId
            && (!before[i].ready ==> !after[i].ready))
    && (forall i :: 0 <= i < |before| && after[i] != before[i] ==>
         |after| == |before| && (forall k :: 0 <= k < |before| && k != i ==> after[k] == before[k]))
    && (|after| == |before| + 1 ==>
         |after[|before|].credentials| == 1 && created == Some(after[|before|].credentials[0].id))
  }

  lemma ApplyExtends(s: AuthStore, op: Op)
    ensures GrantsExtend(s.grants, Apply(s, op).grants, CreatedId(op))
  {
    hide Step, Changes, CanRotate;
    if op.ChangeGrant? {
      var i := GrantIndex(s.grants, op.grantId);
      if i.Some? { StepExtends(s.grants[i.value], op.event); }
    }
  }

  lemma ApplyKeepsIds(s: AuthStore, op: Op, id: Id)
    requires HasCredential(s, id)
    ensures HasCredential(Apply(s, op), id)
  {
    hide Apply;
    ApplyExtends(s, op);
    var i, j :| 0 <= i < |s.grants| && 0 <= j < |s.grants[i].credentials| && s.grants[i].credentials[j].id == id;
    assert Apply(s, op).grants[i].credentials[j].id == id;
  }

  lemma ApplyKeepsUnique(s: AuthStore, op: Op)
    requires UniqueStore(s) && NewIds(s, op)
    ensures UniqueStore(Apply(s, op))
  {
    hide Apply;
    ApplyExtends(s, op);
    var t := Apply(s, op);
    forall i, j, k, l |
      0 <= i < |t.grants| && 0 <= j < |t.grants[i].credentials| && 0 <= k < |t.grants|
        && 0 <= l < |t.grants[k].credentials|
      && t.grants[i].credentials[j].id == t.grants[k].credentials[l].id
      ensures i == k && j == l
    {
      OldOrCreated(s, t, CreatedId(op), i, j);
      OldOrCreated(s, t, CreatedId(op), k, l);
    }
  }

  /** Every credential after the step stood at the same place before or is the new one. */
  lemma OldOrCreated(s: AuthStore, t: AuthStore, created: Option<Id>, i: int, j: int)
    requires GrantsExtend(s.grants, t.grants, created)
    requires 0 <= i < |t.grants| && 0 <= j < |t.grants[i].credentials|
    ensures (i < |s.grants| && j < |s.grants[i].credentials|
      && s.grants[i].credentials[j].id == t.grants[i].credentials[j].id)
         || (created == Some(t.grants[i].credentials[j].id) && j == |t.grants[i].credentials| - 1
             && (i < |s.grants| ==> |t.grants[i].credentials| == |s.grants[i].credentials| + 1)
                && (i >= |s.grants| ==> j == 0))
  {
  }

  // ----- Blocked credentials -----

  /** Nothing done to the store later lets this credential authenticate. */
  predicate Blocked(s: AuthStore, g: Grant, c: Credential) {
    || !g.ready || c.status == Revoked
    || (g.routeId in s.routes && !s.routes[g.routeId].ready)
    || (c.managed && c.sessionId.Some? && c.sessionId.value in s.sessions && !s.sessions[c.sessionId.value].open)
  }

  ghost predicate Refused(s: AuthStore, id: Id) {
    forall i, j :: 0 <= i < |s.grants| && 0 <= j < |s.grants[i].credentials| && s.grants[i].credentials[j].id == id ==>
      Blocked(s, s.grants[i], s.grants[i].credentials[j])
  }

  lemma UsernameInjective(a: Id, b: Id)
    requires Username(a) == Username(b)
    ensures a == b
  {
    assert Username(a)[4..] == a && Username(b)[4..] == b;
  }

  lemma RefusedHasNoAnswer(s: AuthStore, id: Id, key: Cache.Key, now: int)
    requires Refused(s, id) && key.0 == Username(id)
    ensures Answer(s, key, now).None?
  {
    var grant := FindGrant(s.grants, key.0);
    if grant.Some? {
      var g := grant.value;
      var credential := FindCredential(g.credentials, key, now);
      if credential.Some? {
        var c := credential.value;
        UsernameInjective(c.id, id);
        var i :| 0 <= i < |s.grants| && s.grants[i] == g;
        var j :| 0 <= j < |g.credentials| && g.credentials[j] == c;
        assert Blocked(s, s.grants[i], s.grants[i].credentials[j]);
      }
    }
  }

  /** Revoked routes and closed sessions stay so. */
  lemma EndsAreFinal(s: AuthStore, op: Op)
    ensures forall r :: r in s.routes && !s.routes[r].ready ==>
      r in Apply(s, op).routes && !Apply(s, op).routes[r].ready
    ensures forall x :: x in s.sessions && !s.sessions[x].open ==>
      x in Apply(s, op).sessions && !Apply(s, op).sessions[x].open
  {
  }

  lemma ApplyKeepsRefused(s: AuthStore, op: Op, id: Id)
    requires Refused(s, id) && CreatedId(op) != Some(id)
    ensures Refused(Apply(s, op), id)
  {
    hide Apply;
    ApplyExtends(s, op);
    EndsAreFinal(s, op);
    var t := Apply(s, op);
    forall i, j | 0 <= i < |t.grants| && 0 <= j < |t.grants[i].credentials| && t.grants[i].credentials[j].id == id
      ensures Blocked(t, t.grants[i], t.grants[i].credentials[j])
    {
      OldOrCreated(s, t, CreatedId(op), i, j);
      assert Blocked(s, s.grants[i], s.grants[i].credentials[j]);
    }
  }

  // ----- Revocations -----

  /** The operation is a revocation, or a rotation on suspected compromise, that hits the
      credential at position (i, j). */
  predicate Hits(s: AuthStore, op: Op, i: nat, j: nat)
    requires i < |s.grants| && j < |s.grants[i].credentials|
  {
    var g := s.grants[i];
    var c := g.credentials[j];
    match op
    case ChangeGrant(id, RevokeCredential(_, credentialId)) =>
      GrantIndex(s.grants, id) == Some(i) && credentialId == c.id && c.status != Revoked
    case ChangeGrant(id, Rotate(now, previous, _, _, compromised)) =>
      GrantIndex(s.grants, id) == Some(i) && previous == c.id && compromised && CanRotate(g, previous, now)
    case EndGrant(id) => GrantIndex(s.grants, id) == Some(i)
    case RevokeRoute(id, _) => id == g.routeId && id in s.routes && s.routes[id].ready
    case CloseSession(id) => c.managed && c.sessionId == Some(id) && id in s.sessions && s.sessions[id].open
    case _ => false
  }

  lemma {:induction false} RevokeFirstRevokes(credentials: seq<Credential>, id: Id, now: int, j: nat)
    requires j < |credentials| && credentials[j].id == id
    requires forall i :: 0 <= i < j ==> credentials[i].id != id
    ensures RevokeFirst(credentials, id, now)[j].status == Revoked
    ensures Lookup(credentials, id) == Some(credentials[j])
  {
    if j > 0 { RevokeFirstRevokes(credentials[1..], id, now, j - 1); }
  }

  lemma ChangeBlocks(s: AuthStore, op: Op, i: nat, j: nat)
    requires UniqueStore(s) && i < |s.grants| && j < |s.grants[i].credentials| && Hits(s, op, i, j) && op.ChangeGrant?
    ensures var t := Apply(s, op);
            && Within(t, i, j) && t.grants[i].credentials[j].id == s.grants[i].credentials[j].id
            && t.grants[i].credentials[j].status == Revoked && s.epoch < t.epoch
  {
    var credentials := s.grants[i].credentials;
    forall a | 0 <= a < |credentials| && a != j ensures credentials[a].id != credentials[j].id {
      assert Within(s, i, a) && Within(s, i, j);
    }
    hide UniqueStore;
    if op.event.Rotate? {
      LookupAt(credentials, j);
    } else {
      RevokeFirstRevokes(credentials, credentials[j].id, op.event.at, j);
    }
  }

  lemma HitBlocks(s: AuthStore, op: Op, i: nat, j: nat)
    requires UniqueStore(s) && i < |s.grants| && j < |s.grants[i].credentials| && Hits(s, op, i, j)
    ensures var t := Apply(s, op);
            && Within(t, i, j) && t.grants[i].credentials[j].id == s.grants[i].credentials[j].id
            && Blocked(t, t.grants[i], t.grants[i].credentials[j]) && s.epoch < t.epoch
  {
    hide UniqueStore, Step, Changes, CanRotate;
    if op.ChangeGrant? { ChangeBlocks(s, op, i, j); }
  }

  /** Every revocation blocks its credential and raises the epoch. */
  lemma RevocationBlocks(s: AuthStore, op: Op, i: nat, j: nat)
    requires UniqueStore(s) && i < |s.grants| && j < |s.grants[i].credentials| && Hits(s, op, i, j)
    requires CreatedId(op) != Some(s.grants[i].credentials[j].id)
    ensures Refused(Apply(s, op), s.grants[i].credentials[j].id)
    ensures s.epoch < Apply(s, op).epoch
  {
    hide Apply, Hits, Blocked;
    var id, t := s.grants[i].credentials[j].id, Apply(s, op);
    HitBlocks(s, op, i, j);
    ApplyExtends(s, op);
    assert Within(s, i, j);
    forall k, l | 0 <= k < |t.grants| && 0 <= l < |t.grants[k].credentials| && t.grants[k].credentials[l].id == id
      ensures Blocked(t, t.grants[k], t.grants[k].credentials[l])
    {
      OldOrCreated(s, t, CreatedId(op), k, l);
      assert Within(s, k, l);
    }
  }

  // ----- The store behind the cache -----

  ghost predicate IsRun(states: seq<Cache.System<AuthStore>>, events: seq<Cache.Event<AuthStore>>, ops: seq<Op>) {
    && |ops| == |events| && |states| == |events| + 1
    && states[0] == Cache.System(EMPTY_STORE, Cache.EMPTY_SERVICE)
    && (forall k :: 0 <= k < |events| ==> states[k + 1] == Cache.Next(states[k], events[k], EpochOf, Answer))
    && (forall k :: 0 <= k < |events| && events[k].Admin? ==>
         events[k].store == Apply(states[k].store, ops[k]) && NewIds(states[k].store, ops[k]))
    && (forall k :: 0 <= k < |events| ==> 0 <= events[k].at)
    && (forall i, j :: 0 <= i < j < |events| ==> events[i].at <= events[j].at)
  }

  lemma RunsAreCacheRuns(states: seq<Cache.System<AuthStore>>, events: seq<Cache.Event<AuthStore>>, ops: seq<Op>)
    requires IsRun(states, events, ops)
    ensures Cache.IsRun(states, events, EpochOf, Answer)
  {
    hide Apply, Answer;
    forall k | 0 <= k < |events| ensures EpochOf(states[k].store) <= EpochOf(states[k + 1].store) {
      EpochNeverFalls(states[k].store, ops[k]);
    }
  }

  lemma {:induction false} RunUnique(
    states: seq<Cache.System<AuthStore>>, events: seq<Cache.Event<AuthStore>>, ops: seq<Op>, k: nat)
    requires IsRun(states, events, ops) && k <= |events|
    ensures UniqueStore(states[k].store)
  {
    hide Apply, Answer;
    if k > 0 {
      RunUnique(states, events, ops, k - 1);
      if events[k - 1].Admin? { ApplyKeepsUnique(states[k - 1].store, ops[k - 1]); }
    }
  }

  lemma {:induction false} RefusedForGood(
    states: seq<Cache.System<AuthStore>>, events: seq<Cache.Event<AuthStore>>, ops: seq<Op>, i: nat, j: nat, id: Id)
    requires IsRun(states, events, ops) && i <= j <= |events|
    requires Refused(states[i].store, id) && HasCredential(states[i].store, id)
    ensures Refused(states[j].store, id) && HasCredential(states[j].store, id)
  {
    hide Apply, Answer, Refused, HasCredential;
    if i < j {
      RefusedForGood(states, events, ops, i, j - 1, id);
      if events[j - 1].Admin? {
        ApplyKeepsRefused(states[j - 1].store, ops[j - 1], id);
        ApplyKeepsIds(states[j - 1].store, ops[j - 1], id);
      }
    }
  }

  /** In every run, one second after a credential, its grant, its route or its session
      is revoked or closed, no authentication with that credential succeeds, whoever
      made the change and whatever the cache held. */
  lemma RevocationReachesAuthentication(
    states: seq<Cache.System<AuthStore>>, events: seq<Cache.Event<AuthStore>>, ops: seq<Op>,
    a: nat, i: nat, j: nat, k: nat)
    requires IsRun(states, events, ops) && a < k < |events| && events[a].Admin?
    requires i < |states[a].store.grants| && j < |states[a].store.grants[i].credentials|
      && Hits(states[a].store, ops[a], i, j)
    requires events[k].Authenticate? && events[k].key.0 == Username(states[a].store.grants[i].credentials[j].id)
    requires events[a].at + 1_000 <= events[k].at
    ensures Cache.ReplyAt(states[k], events[k], EpochOf, Answer).None?
  {
    hide Apply, Answer, Refused, Hits;
    var store := states[a].store;
    var id := store.grants[i].credentials[j].id;
    RunUnique(states, events, ops, a);
    assert HasCredential(store, id);
    RevocationBlocks(store, ops[a], i, j);
    ApplyKeepsIds(store, ops[a], id);
    forall l | a < l < |events| ensures Answer(states[l].store, events[k].key, events[l].at).None? {
      RefusedForGood(states, events, ops, a + 1, l, id);
      RefusedHasNoAnswer(states[l].store, id, events[k].key, events[l].at);
    }
    RunsAreCacheRuns(states, events, ops);
    Cache.RevocationTakesEffect(states, events, EpochOf, Answer, events[k].key, a, k);
  }
}
