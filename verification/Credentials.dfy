/** Access-grant credentials: dates, rotation, revocation and the public view of them,
    over every run of one grant. */
module Credentials {
  import opened Options

  type Id = string

  const LIFETIME_MS := 2_592_000_000
  const RENEWAL_WINDOW_MS := 604_800_000
  const OVERLAP_MS := 259_200_000

  datatype CredentialStatus = Active | Overlap | Revoked

  /** The salted digest of the token is represented by the token itself. */
  datatype Credential = Credential(
    id: Id, token: string, managed: bool, sessionId: Option<Id>, status: CredentialStatus,
    createdAt: int, renewalDueAt: int, expiresAt: int, revokeAt: Option<int>)

  datatype Grant = Grant(id: Id, routeId: Id, credentials: seq<Credential>, ready: bool)

  function CreateCredential(id: Id, token: string, managed: bool, sessionId: Option<Id>, now: int): Credential {
    Credential(
      id, token, managed, sessionId, Active, now, now + LIFETIME_MS - RENEWAL_WINDOW_MS, now + LIFETIME_MS, None)
  }

  predicate Usable(c: Credential, now: int) {
    c.status != Revoked && c.expiresAt > now && (c.revokeAt.None? || c.revokeAt.value > now)
  }

  function Lookup(credentials: seq<Credential>, id: Id): (r: Option<Credential>)
    ensures r.Some? ==> r.value in credentials && r.value.id == id
    ensures r.None? <==> forall c :: c in credentials ==> c.id != id
  {
    if credentials == [] then None
    else
      assert credentials == [credentials[0]] + credentials[1..];
      if credentials[0].id == id then Some(credentials[0]) else Lookup(credentials[1..], id)
  }

  // ----- The operations on one grant -----

  function RotateOne(c: Credential, compromised: bool, now: int): Credential {
    if !Usable(c, now) then c
    else if compromised then c.(status := Revoked, revokeAt := Some(now))
    else
      var limit := now + OVERLAP_MS;
      c.(status := Overlap, revokeAt := Some(if c.expiresAt < limit then c.expiresAt else limit))
  }

  /** Applies `RotateOne` to every credential with the id. */
  function RotateAll(credentials: seq<Credential>, id: Id, compromised: bool, now: int): (r: seq<Credential>)
    ensures |r| == |credentials|
    ensures forall i :: 0 <= i < |r| ==>
      r[i] == if credentials[i].id == id then RotateOne(credentials[i], compromised, now) else credentials[i]
  {
    seq(|credentials|, i requires 0 <= i < |credentials| =>
      if credentials[i].id == id then RotateOne(credentials[i], compromised, now) else credentials[i])
  }

  /** Revokes the first credential with the id. */
  function RevokeFirst(credentials: seq<Credential>, id: Id, now: int): (r: seq<Credential>)
    ensures |r| == |credentials|
    ensures forall i :: 0 <= i < |r| ==>
      (r[i] == credentials[i]
        || (credentials[i].id == id && r[i] == credentials[i].(status := Revoked, revokeAt := Some(now))))
  {
    if credentials == [] then []
    else if credentials[0].id == id then
      if credentials[0].status == Revoked then credentials
      else [credentials[0].(status := Revoked, revokeAt := Some(now))] + credentials[1..]
    else [credentials[0]] + RevokeFirst(credentials[1..], id, now)
  }

  datatype Event =
    | Add(at: int, id: Id, token: string, managed: bool, sessionId: Option<Id>)
    | Rotate(at: int, previous: Id, id: Id, token: string, compromised: bool)
    | RevokeCredential(at: int, id: Id)
    | RevokeGrant(at: int)

  predicate CanRotate(g: Grant, previous: Id, now: int) {
    g.ready && Lookup(g.credentials, previous).Some? && Usable(Lookup(g.credentials, previous).value, now)
  }

  /** The grant after one operation; unchanged where the source throws. */
  function Step(g: Grant, e: Event): Grant {
    match e
    case Add(now, id, token, managed, sessionId) =>
      if g.ready then g.(credentials := g.credentials + [CreateCredential(id, token, managed, sessionId, now)]) else g
    case Rotate(now, previous, id, token, compromised) =>
      if CanRotate(g, previous, now) then
        var Credential(_, _, managed, sessionId, _, _, _, _, _) := Lookup(g.credentials, previous).value;
        g.(credentials := RotateAll(g.credentials, previous, compromised, now)
          + [CreateCredential(id, token, managed, sessionId, now)])
      else g
    case RevokeCredential(now, id) => g.(credentials := RevokeFirst(g.credentials, id, now))
    case RevokeGrant(_) => g.(ready := false)
  }

  /** A new credential never reuses an id. */
  predicate NewId(g: Grant, e: Event) {
    && (e.Add? ==> Lookup(g.credentials, e.id).None?)
    && (e.Rotate? ==> Lookup(g.credentials, e.id).None?)
  }

  ghost predicate Unique(credentials: seq<Credential>) {
    forall i, j :: 0 <= i < j < |credentials| ==> credentials[i].id != credentials[j].id
  }

  ghost predicate IsRun(grants: seq<Grant>, events: seq<Event>) {
    && |grants| == |events| + 1
    && Unique(grants[0].credentials)
    && (forall c :: c in grants[0].credentials ==> c.expiresAt == c.createdAt + LIFETIME_MS)
    && (forall k :: 0 <= k < |events| ==> grants[k + 1] == Step(grants[k], events[k]) && NewId(grants[k], events[k]))
    && (forall i, j :: 0 <= i < j < |events| ==> events[i].at <= events[j].at)
  }

  // ----- One credential through one step -----

  lemma {:induction false} LookupAt(credentials: seq<Credential>, i: nat)
    requires Unique(credentials) && i < |credentials|
    ensures Lookup(credentials, credentials[i].id) == Some(credentials[i])
  {
    if i > 0 { LookupAt(credentials[1..], i - 1); }
  }

  /** What a step may do to a credential it finds. */
  ghost predicate Evolves(before: Credential, after: Credential, e: Event) {
    || after == before
    || (after == before.(status := Revoked, revokeAt := Some(e.at)))
    || (e.Rotate? && e.previous == before.id && !e.compromised && after == RotateOne(before, false, e.at))
  }

  lemma StepEvolves(g: Grant, e: Event, id: Id)
    requires Unique(g.credentials) && NewId(g, e) && Lookup(g.credentials, id).Some?
    ensures Unique(Step(g, e).credentials) && Lookup(Step(g, e).credentials, id).Some?
    ensures Evolves(Lookup(g.credentials, id).value, Lookup(Step(g, e).credentials, id).value, e)
  {
    var i :| 0 <= i < |g.credentials| && g.credentials[i] == Lookup(g.credentials, id).value;
    var next := Step(g, e).credentials;
    assert next[i].id == id && Evolves(g.credentials[i], next[i], e);
    StepUnique(g, e);
    hide Unique, Evolves, Step;
    LookupAt(next, i);
  }

  lemma StepUnique(g: Grant, e: Event)
    requires Unique(g.credentials) && NewId(g, e)
    ensures Unique(Step(g, e).credentials)
  {
  }

  lemma {:induction false} RunUnique(grants: seq<Grant>, events: seq<Event>, k: nat)
    requires IsRun(grants, events) && k <= |events|
    ensures Unique(grants[k].credentials)
  {
    hide Step, NewId, Unique;
    if k > 0 {
      RunUnique(grants, events, k - 1);
      StepUnique(grants[k - 1], events[k - 1]);
    }
  }

  // ----- Results -----

  /** A credential that stops being usable never becomes usable again. */
  lemma {:induction false} UnusableForGood(
    grants: seq<Grant>, events: seq<Event>, i: nat, j: nat, id: Id, since: int, now: int)
    requires IsRun(grants, events) && i <= j <= |events|
    requires Lookup(grants[i].credentials, id).Some? && !Usable(Lookup(grants[i].credentials, id).value, since)
    requires since <= now && forall k :: i <= k < j ==> since <= events[k].at <= now
    ensures Lookup(grants[j].credentials, id).Some? && !Usable(Lookup(grants[j].credentials, id).value, now)
    decreases j
  {
    hide Step, Lookup, NewId, Unique;
    if i < j {
      var at := events[j - 1].at;
      UnusableForGood(grants, events, i, j - 1, id, since, at);
      RunUnique(grants, events, j - 1);
      StepEvolves(grants[j - 1], events[j - 1], id);
    }
  }

  lemma {:induction false} DatesFixed(grants: seq<Grant>, events: seq<Event>, k: nat)
    requires IsRun(grants, events) && k <= |events|
    ensures forall c :: c in grants[k].credentials ==> c.expiresAt == c.createdAt + LIFETIME_MS
  {
    hide Step, NewId, Unique;
    if k > 0 {
      DatesFixed(grants, events, k - 1);
      DatesStep(grants[k - 1], events[k - 1]);
    }
  }

  lemma DatesStep(g: Grant, e: Event)
    requires forall c :: c in g.credentials ==> c.expiresAt == c.createdAt + LIFETIME_MS
    ensures forall c :: c in Step(g, e).credentials ==> c.expiresAt == c.createdAt + LIFETIME_MS
  {
    var next := Step(g, e).credentials;
    forall i | 0 <= i < |next| ensures next[i].expiresAt == next[i].createdAt + LIFETIME_MS {
      if i < |g.credentials| { assert g.credentials[i] in g.credentials; }
    }
  }

  /** No credential is usable 30 days after its creation. */
  lemma NoneUsableAfterLifetime(grants: seq<Grant>, events: seq<Event>, k: nat, c: Credential, now: int)
    requires IsRun(grants, events) && k <= |events| && c in grants[k].credentials
    requires c.createdAt + 2_592_000_000 <= now
    ensures !Usable(c, now)
  {
    DatesFixed(grants, events, k);
  }

  predicate Rotates(g: Grant, e: Event, id: Id) { e.Rotate? && e.previous == id && CanRotate(g, id, e.at) }

  /** A rotated credential ends within 72 hours of its last rotation, and at once when
      compromise was suspected. */
  lemma {:induction false} RotatedEnds(grants: seq<Grant>, events: seq<Event>, i: nat, j: nat, id: Id)
    requires IsRun(grants, events) && i < j <= |events| && Rotates(grants[i], events[i], id)
    requires forall k :: i < k < j ==> !Rotates(grants[k], events[k], id)
    ensures Lookup(grants[j].credentials, id).Some?
    ensures forall now :: events[i].at + 259_200_000 <= now ==> !Usable(Lookup(grants[j].credentials, id).value, now)
    ensures events[i].compromised ==> forall now :: !Usable(Lookup(grants[j].credentials, id).value, now)
  {
    RotationHolds(grants, events, i, j, id);
  }

  /** What a rotation leaves in the credential until the next one. */
  ghost predicate EndsBy(c: Credential, limit: int) {
    c.status == Revoked || (c.revokeAt.Some? && c.revokeAt.value <= limit)
  }

  lemma {:induction false} RotationHolds(grants: seq<Grant>, events: seq<Event>, i: nat, j: nat, id: Id)
    requires IsRun(grants, events) && i < j <= |events| && events[i].Rotate? && Rotates(grants[i], events[i], id)
    requires forall k :: i < k < j ==> !Rotates(grants[k], events[k], id)
    ensures Lookup(grants[j].credentials, id).Some?
    ensures EndsBy(Lookup(grants[j].credentials, id).value, events[i].at + OVERLAP_MS)
    ensures events[i].compromised ==> Lookup(grants[j].credentials, id).value.status == Revoked
    decreases j
  {
    hide Step, Lookup, NewId, Unique, Rotates;
    RunUnique(grants, events, j - 1);
    if j == i + 1 {
      RotationStarts(grants[i], events[i], id);
      RotationIsRotate(grants[i], events[i], id);
    } else {
      RotationHolds(grants, events, i, j - 1, id);
      StepEvolves(grants[j - 1], events[j - 1], id);
      RotationStays(grants[j - 1], events[j - 1], id);
    }
  }

  lemma RotationStays(g: Grant, e: Event, id: Id)
    requires Unique(g.credentials) && NewId(g, e) && Lookup(g.credentials, id).Some? && !Rotates(g, e, id)
    ensures Lookup(Step(g, e).credentials, id).Some?
    ensures var before, after := Lookup(g.credentials, id).value, Lookup(Step(g, e).credentials, id).value;
            after == before || after.status == Revoked
  {
    StepEvolves(g, e, id);
    if e.Rotate? && e.previous == id { assert Step(g, e) == g; }
  }

  lemma RotationIsRotate(g: Grant, e: Event, id: Id)
    requires Rotates(g, e, id)
    ensures e.Rotate? && Lookup(g.credentials, id).Some? && Usable(Lookup(g.credentials, id).value, e.at)
  {
  }

  lemma RotationStarts(g: Grant, e: Event, id: Id)
    requires Unique(g.credentials) && NewId(g, e) && Rotates(g, e, id)
    ensures Lookup(Step(g, e).credentials, id) == Some(RotateOne(Lookup(g.credentials, id).value, e.compromised, e.at))
  {
    var i :| 0 <= i < |g.credentials| && g.credentials[i] == Lookup(g.credentials, id).value;
    StepUnique(g, e);
    LookupAt(Step(g, e).credentials, i);
  }

  /** The end a rotation leaves is later than another. */
  predicate EndsLater(after: Credential, before: Credential) {
    after.revokeAt.Some? && before.revokeAt.Some? && before.revokeAt.value < after.revokeAt.value
  }

  /** A second rotation moves the end later if and only if it comes later, during the
      overlap, and the overlap was not capped by the expiry. */
  lemma SecondRotationExtends(c: Credential, first: int, second: int)
    requires Usable(c, first) && first <= second
    ensures EndsLater(RotateOne(RotateOne(c, false, first), false, second), RotateOne(c, false, first))
       <==> first < second < first + 259_200_000 < c.expiresAt
  {
  }

  /** Until the next rotation the rotated credential is as the rotation left it, or
      revoked. */
  lemma {:induction false} RotatedUntouched(grants: seq<Grant>, events: seq<Event>, i: nat, j: nat, id: Id)
    requires IsRun(grants, events) && i < j <= |events| && Rotates(grants[i], events[i], id)
    requires forall k :: i < k < j ==> !Rotates(grants[k], events[k], id)
    ensures Lookup(grants[i].credentials, id).Some? && Lookup(grants[j].credentials, id).Some? && events[i].Rotate?
    ensures var left := RotateOne(Lookup(grants[i].credentials, id).value, events[i].compromised, events[i].at);
            var now := Lookup(grants[j].credentials, id).value;
            now == left || now.status == Revoked
    decreases j
  {
    hide Step, Lookup, NewId, Unique, Rotates, RotateOne;
    RotationIsRotate(grants[i], events[i], id);
    RunUnique(grants, events, j - 1);
    if j == i + 1 {
      RotationStarts(grants[i], events[i], id);
    } else {
      RotatedUntouched(grants, events, i, j - 1, id);
      StepEvolves(grants[j - 1], events[j - 1], id);
      RotationStays(grants[j - 1], events[j - 1], id);
    }
  }

  /** A rotation request for the credential as it finds it. */
  lemma RotationRequest(g: Grant, e: Event, id: Id)
    requires Unique(g.credentials) && NewId(g, e) && Lookup(g.credentials, id).Some?
    requires e.Rotate? && e.previous == id && !e.compromised
    ensures var c := Lookup(g.credentials, id).value;
            Lookup(Step(g, e).credentials, id) == Some(if g.ready then RotateOne(c, false, e.at) else c)
  {
    if Rotates(g, e, id) { RotationStarts(g, e, id); } else { assert Step(g, e) == g; }
  }

  /** In every run, a request to rotate a credential again moves its end later if and only
      if the grant is ready, the credential was not revoked meanwhile, and the request
      comes later and during an overlap that the expiry did not cap. */
  lemma SecondRotationExtendsInRun(grants: seq<Grant>, events: seq<Event>, i: nat, j: nat, id: Id)
    requires IsRun(grants, events) && i < j < |events|
    requires Rotates(grants[i], events[i], id) && events[i].Rotate? && !events[i].compromised
    requires events[j].Rotate? && events[j].previous == id && !events[j].compromised
    requires forall k :: i < k < j ==> !Rotates(grants[k], events[k], id)
    ensures Lookup(grants[i].credentials, id).Some?
    ensures Lookup(grants[j].credentials, id).Some? && Lookup(grants[j + 1].credentials, id).Some?
    ensures var c, before := Lookup(grants[i].credentials, id).value, Lookup(grants[j].credentials, id).value;
            EndsLater(Lookup(grants[j + 1].credentials, id).value, before)
            <==> grants[j].ready && before.status != Revoked
                 && events[i].at < events[j].at < events[i].at + 259_200_000 < c.expiresAt
  {
    hide Step, Lookup, NewId, Unique, Rotates;
    RotationIsRotate(grants[i], events[i], id);
    RotatedUntouched(grants, events, i, j, id);
    RunUnique(grants, events, j);
    RotationRequest(grants[j], events[j], id);
    SecondRotationExtends(Lookup(grants[i].credentials, id).value, events[i].at, events[j].at);
  }

  /** A run in which it happens: a credential rotated at once and again a millisecond
      later ends a millisecond later. */
  lemma SecondRotationRun() returns (grants: seq<Grant>, events: seq<Event>)
    ensures IsRun(grants, events) && |events| == 2
    ensures Lookup(grants[1].credentials, "c").Some? && Lookup(grants[2].credentials, "c").Some?
    ensures Lookup(grants[1].credentials, "c").value.revokeAt == Some(OVERLAP_MS)
    ensures Lookup(grants[2].credentials, "c").value.revokeAt == Some(OVERLAP_MS + 1)
  {
    var c := CreateCredential("c", "t", false, None, 0);
    var d := CreateCredential("d", "u", false, None, 0);
    var e := CreateCredential("e", "v", false, None, 1);
    events := [Rotate(0, "c", "d", "u", false), Rotate(1, "c", "e", "v", false)];
    var g0 := Grant("g", "r", [c], true);
    assert Lookup(g0.credentials, "c") == Some(c) && Lookup(g0.credentials, "d").None?;
    var g1 := Step(g0, events[0]);
    assert g1.credentials == [RotateOne(c, false, 0), d];
    assert Lookup(g1.credentials, "c") == Some(RotateOne(c, false, 0)) && Lookup(g1.credentials, "e").None?;
    var g2 := Step(g1, events[1]);
    assert g2.credentials == [RotateOne(RotateOne(c, false, 0), false, 1), d, e];
    assert Lookup(g2.credentials, "c") == Some(g2.credentials[0]);
    grants := [g0, g1, g2];
  }

  /** A new credential is active, expires after 30 days and is due for renewal 7 days
      earlier. */
  lemma NewCredential(id: Id, token: string, managed: bool, sessionId: Option<Id>, now: int)
    ensures var c := CreateCredential(id, token, managed, sessionId, now);
            && c.id == id && c.token == token && c.managed == managed && c.sessionId == sessionId
            && c.status == Active && c.revokeAt == None && c.createdAt == now
            && c.expiresAt == now + 2_592_000_000 && c.renewalDueAt == c.expiresAt - 604_800_000
  {
  }

  // ----- The public view -----

  datatype PublicStatus = PublicActive | PublicOverlap | PublicRevoked | PublicExpired

  function ToPublicStatus(g: Grant, c: Credential, now: int): PublicStatus {
    if !g.ready || c.status == Revoked || (c.revokeAt.Some? && c.revokeAt.value <= now) then PublicRevoked
    else if c.expiresAt <= now then PublicExpired
    else if c.status == Active then PublicActive else PublicOverlap
  }

  /** The public status is active or overlap exactly when the grant is ready and the
      credential usable. */
  lemma PublicStatusIsUsability(g: Grant, c: Credential, now: int)
    ensures ToPublicStatus(g, c, now) in {PublicActive, PublicOverlap} <==> g.ready && Usable(c, now)
    ensures ToPublicStatus(g, c, now) == PublicActive <==> g.ready && Usable(c, now) && c.status == Active
    ensures ToPublicStatus(g, c, now) == PublicExpired
       <==> && g.ready && c.status != Revoked && c.expiresAt <= now && (c.revokeAt.Some? ==> now < c.revokeAt.value)
  {
  }
}
