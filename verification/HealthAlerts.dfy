/** The alert episodes of one capability: what is emitted over every sequence of
    snapshots, and what a crash between the two state saves can do. */
module HealthAlerts {
  import opened Options

  datatype Status = Operational | Degraded | Unavailable
  datatype EventKind = Alert | Recovery

  datatype AlertState = AlertState(
    observedStatus: Status, observedSince: int, alertedStatus: Option<Status>, alertedAt: Option<int>, updatedAt: int)

  /** The dedupe key of the source: capability, kind, status and start of the episode. */
  datatype DedupeKey = DedupeKey(capability: string, kind: EventKind, status: Status, episodeStartedAt: int)

  datatype Event = Event(key: DedupeKey, previousStatus: Option<Status>, createdAt: int)

  datatype Snapshot = Snapshot(generatedAt: int, status: Status)

  // ----- Snapshot times -----

  /** The time of a snapshot, later than the previous one whatever the clock says. */
  function GeneratedAt(now: int, previous: Option<int>): int {
    if previous.None? then now else if now < previous.value + 1 then previous.value + 1 else now
  }

  function Snapshots(clock: seq<int>, statuses: seq<Status>): (s: seq<Snapshot>)
    requires |clock| == |statuses|
    ensures |s| == |clock|
  {
    if clock == [] then []
    else
      var last := |clock| - 1;
      var rest := Snapshots(clock[..last], statuses[..last]);
      rest + [Snapshot(GeneratedAt(clock[last], if rest == [] then None else Some(rest[|rest| - 1].generatedAt)),
        statuses[last])]
  }

  ghost predicate Increasing(s: seq<Snapshot>) {
    forall i, j :: 0 <= i < j < |s| ==> s[i].generatedAt < s[j].generatedAt
  }

  /** Snapshot times strictly increase, even where the clock steps back. */
  lemma {:induction false} SnapshotsIncrease(clock: seq<int>, statuses: seq<Status>)
    requires |clock| == |statuses|
    ensures Increasing(Snapshots(clock, statuses))
  {
    if clock != [] {
      var last := |clock| - 1;
      SnapshotsIncrease(clock[..last], statuses[..last]);
      var rest := Snapshots(clock[..last], statuses[..last]);
      if rest != [] {
        assert forall i :: 0 <= i < |rest| - 1 ==> rest[i].generatedAt < rest[|rest| - 1].generatedAt;
      }
    }
  }

  /** A snapshot has the clock's time where the previous one is earlier, else the next
      millisecond after it, and the status that was observed. */
  lemma {:induction false} SnapshotTimes(clock: seq<int>, statuses: seq<Status>, i: nat)
    requires i < |clock| == |statuses|
    ensures var s := Snapshots(clock, statuses);
            && s[i].status == statuses[i]
            && s[i].generatedAt
               == if i > 0 && clock[i] <= s[i - 1].generatedAt then s[i - 1].generatedAt + 1 else clock[i]
  {
    var last := |clock| - 1;
    var rest := Snapshots(clock[..last], statuses[..last]);
    if i < last {
      SnapshotTimes(clock[..last], statuses[..last], i);
      assert Snapshots(clock, statuses)[i] == rest[i];
      assert i > 0 ==> Snapshots(clock, statuses)[i - 1] == rest[i - 1];
    }
  }

  // ----- One evaluation -----

  /** The state saved before anything is emitted: the episode boundary. */
  function Observe(prior: Option<AlertState>, snapshot: Snapshot): AlertState {
    AlertState(
      snapshot.status,
      if prior.None? || prior.value.observedStatus != snapshot.status then snapshot.generatedAt
        else prior.value.observedSince,
      if prior.None? then None else prior.value.alertedStatus, if prior.None? then None else prior.value.alertedAt,
      snapshot.generatedAt)
  }

  predicate DelaySatisfied(observed: AlertState, snapshot: Snapshot, delay: int) {
    snapshot.status == Unavailable || snapshot.generatedAt - observed.observedSince >= delay
  }

  predicate Recovers(observed: AlertState, snapshot: Snapshot) {
    snapshot.status == Operational && observed.alertedStatus.Some?
  }

  predicate Alerts(observed: AlertState, snapshot: Snapshot, delay: int) {
    snapshot.status != Operational && DelaySatisfied(observed, snapshot, delay)
      && observed.alertedStatus != Some(snapshot.status)
  }

  /** The event an evaluation emits, if any. */
  function Emitted(capability: string, observed: AlertState, snapshot: Snapshot, delay: int): Option<Event> {
    if Recovers(observed, snapshot) then
      Some(Event(DedupeKey(capability, Recovery, Operational, observed.observedSince), observed.alertedStatus,
        snapshot.generatedAt))
    else if Alerts(observed, snapshot, delay) then
      Some(Event(DedupeKey(capability, Alert, snapshot.status, observed.observedSince), None, snapshot.generatedAt))
    else None
  }

  /** The state saved at the end. */
  function Settle(observed: AlertState, snapshot: Snapshot, delay: int): AlertState {
    if Recovers(observed, snapshot) then observed.(alertedStatus := None, alertedAt := None)
    else if Alerts(observed, snapshot, delay)
      then observed.(alertedStatus := Some(snapshot.status), alertedAt := Some(snapshot.generatedAt))
    else observed
  }

  /** The event store keeps one event per dedupe key. */
  function Store(events: map<DedupeKey, Event>, emitted: Option<Event>): map<DedupeKey, Event> {
    if emitted.None? || emitted.value.key in events then events else events[emitted.value.key := emitted.value]
  }

  /** How far an evaluation gets before its process stops. */
  datatype Progress = Complete | StopsBeforeEmit | StopsBeforeSave

  /** The coordinator with the repository state it reads and writes. */
  class HealthAlertCoordinator {
    var states: map<string, AlertState>
    var events: map<DedupeKey, Event>
    const degradedDelayMs: int

    constructor (delay: int)
      ensures states == map[] && events == map[] && degradedDelayMs == delay
    {
      states, events := map[], map[];
      degradedDelayMs := delay;
    }

    method CreateHealthAlertEvent(event: Event) returns (created: bool)
      modifies this`events
      ensures created <==> event.key !in old(events)
      ensures events == Store(old(events), Some(event))
    {
      created := event.key !in events;
      if created { events := events[event.key := event]; }
    }

    method EvaluateCapability(capability: string, snapshot: Snapshot, progress: Progress)
      modifies this
      ensures var observed := Observe(At(old(states), capability), snapshot);
              && states == old(states)[capability := if progress.Complete?
                then Settle(observed, snapshot, degradedDelayMs) else observed]
              && events == if progress.StopsBeforeEmit? then old(events)
                else Store(old(events), Emitted(capability, observed, snapshot, degradedDelayMs))
    {
      var prior := At(states, capability);
      var state := Observe(prior, snapshot);
      states := states[capability := state];
      if progress.StopsBeforeEmit? { return; }
      if snapshot.status == Operational && state.alertedStatus.Some? {
        var _ := CreateHealthAlertEvent(
          Event(DedupeKey(capability, Recovery, snapshot.status, state.observedSince), state.alertedStatus,
            snapshot.generatedAt));
        state := AlertState(snapshot.status, state.observedSince, None, None, snapshot.generatedAt);
      } else if snapshot.status != Operational {
        var delaySatisfied := snapshot.status == Unavailable
          || snapshot.generatedAt - state.observedSince >= degradedDelayMs;
        if delaySatisfied && state.alertedStatus != Some(snapshot.status) {
          var _ := CreateHealthAlertEvent(
            Event(DedupeKey(capability, Alert, snapshot.status, state.observedSince), None, snapshot.generatedAt));
          state := state.(alertedStatus := Some(snapshot.status), alertedAt := Some(snapshot.generatedAt));
        }
      }
      if progress.StopsBeforeSave? { return; }
      states := states[capability := state];
    }
  }

  function At(states: map<string, AlertState>, capability: string): Option<AlertState> {
    if capability in states then Some(states[capability]) else None
  }

  // ----- Uninterrupted runs -----

  /** State and emitted events after the snapshots. */
  datatype History = History(state: Option<AlertState>, log: seq<Event>)

  function Run(capability: string, snapshots: seq<Snapshot>, delay: int): History {
    if snapshots == [] then History(None, [])
    else
      var last := |snapshots| - 1;
      var before := Run(capability, snapshots[..last], delay);
      var observed := Observe(before.state, snapshots[last]);
      var emitted := Emitted(capability, observed, snapshots[last], delay);
      History(Some(Settle(observed, snapshots[last], delay)), Extend(before.log, emitted))
  }

  /** The alert that stands: the last event, if it is an alert. */
  function Standing(log: seq<Event>): Option<Status> {
    if log == [] || log[|log| - 1].key.kind == Recovery then None else Some(log[|log| - 1].key.status)
  }

  ghost predicate PairedAt(log: seq<Event>, k: nat)
    requires k < |log|
  {
    && (log[k].key.kind == Recovery ==>
         k > 0 && log[k - 1].key.kind == Alert && log[k].previousStatus == Some(log[k - 1].key.status))
    && (log[k].key.kind == Alert <==> log[k].key.status != Operational)
    && (log[k].key.kind == Alert && k > 0 && log[k - 1].key.kind == Alert ==>
         log[k].key.status != log[k - 1].key.status)
  }

  /** A recovery answers the alert right before it, and an alert follows no alert of its
      own status. */
  ghost predicate WellPaired(log: seq<Event>) {
    forall k: nat :: k < |log| ==> PairedAt(log, k)
  }

  /** The run of snapshots of one status that ends with the last one started at `since`. */
  ghost predicate Unbroken(snapshots: seq<Snapshot>, s: nat, status: Status, since: int) {
    && s < |snapshots| && snapshots[s].generatedAt == since
    && (forall k :: s <= k < |snapshots| ==> snapshots[k].status == status)
    && (s > 0 ==> snapshots[s - 1].status != status)
  }

  ghost predicate EpisodeOf(snapshots: seq<Snapshot>, state: AlertState) {
    exists s: nat :: Unbroken(snapshots, s, state.observedStatus, state.observedSince)
  }

  ghost predicate RunInv(capability: string, snapshots: seq<Snapshot>, delay: int) {
    var h := Run(capability, snapshots, delay);
    && WellPaired(h.log)
    && (h.state.None? <==> snapshots == [])
    && (h.state.None? ==> h.log == [])
    && (h.state.Some? ==> h.state.value.alertedStatus == Standing(h.log) && EpisodeOf(snapshots, h.state.value))
  }

  lemma EpisodeStep(snapshots: seq<Snapshot>, prior: Option<AlertState>)
    requires snapshots != []
    requires prior.Some? <==> |snapshots| > 1
    requires prior.Some? ==> EpisodeOf(snapshots[..|snapshots| - 1], prior.value)
    ensures EpisodeOf(snapshots, Observe(prior, snapshots[|snapshots| - 1]))
  {
    var last := |snapshots| - 1;
    var observed := Observe(prior, snapshots[last]);
    if prior.Some? && prior.value.observedStatus == snapshots[last].status {
      var s: nat :| Unbroken(snapshots[..last], s, prior.value.observedStatus, prior.value.observedSince);
      assert Unbroken(snapshots, s, observed.observedStatus, observed.observedSince);
    } else {
      if prior.Some? {
        var s: nat :| Unbroken(snapshots[..last], s, prior.value.observedStatus, prior.value.observedSince);
        assert snapshots[last - 1].status == prior.value.observedStatus;
      }
      assert Unbroken(snapshots, last, observed.observedStatus, observed.observedSince);
    }
  }

  function Extend(log: seq<Event>, emitted: Option<Event>): seq<Event> {
    if emitted.Some? then log + [emitted.value] else log
  }

  /** The pairing after one evaluation, given that the state knows the standing alert. */
  lemma PairStep(capability: string, log: seq<Event>, observed: AlertState, snapshot: Snapshot, delay: int)
    requires WellPaired(log) && observed.alertedStatus == Standing(log)
    ensures var after := Extend(log, Emitted(capability, observed, snapshot, delay));
            WellPaired(after) && Settle(observed, snapshot, delay).alertedStatus == Standing(after)
  {
    var after := Extend(log, Emitted(capability, observed, snapshot, delay));
    if log != [] { assert PairedAt(log, |log| - 1); }
    forall k: nat | k < |after| ensures PairedAt(after, k) {
      if k < |log| { assert PairedAt(log, k); }
    }
  }

  lemma {:induction false} RunHolds(capability: string, snapshots: seq<Snapshot>, delay: int)
    ensures RunInv(capability, snapshots, delay)
  {
    if snapshots != [] {
      hide WellPaired, Standing, Emitted, EpisodeOf;
      var last := |snapshots| - 1;
      var before := Run(capability, snapshots[..last], delay);
      RunHolds(capability, snapshots[..last], delay);
      EpisodeStep(snapshots, before.state);
      NothingStands();
      var observed := Observe(before.state, snapshots[last]);
      PairStep(capability, before.log, observed, snapshots[last], delay);
      SettleKeepsEpisode(snapshots, observed, snapshots[last], delay);
    }
  }

  lemma NothingStands()
    ensures Standing([]) == None && WellPaired([])
  {
  }

  lemma SettleKeepsEpisode(snapshots: seq<Snapshot>, observed: AlertState, snapshot: Snapshot, delay: int)
    requires EpisodeOf(snapshots, observed)
    ensures EpisodeOf(snapshots, Settle(observed, snapshot, delay))
  {
  }

  // ----- Results -----

  /** Each recovery answers an alert not yet recovered, with that alert's status, and
      consecutive alerts without a recovery differ in status. */
  lemma EventsArePaired(capability: string, snapshots: seq<Snapshot>, delay: int)
    ensures WellPaired(Run(capability, snapshots, delay).log)
  {
    RunHolds(capability, snapshots, delay);
  }

  /** The status of the last snapshot is unbroken for the delay. */
  ghost predicate DegradedFor(snapshots: seq<Snapshot>, delay: int)
    requires snapshots != []
  {
    var last := snapshots[|snapshots| - 1];
    exists s: nat :: s < |snapshots| && Unbroken(snapshots, s, last.status, snapshots[s].generatedAt)
                     && last.generatedAt - snapshots[s].generatedAt >= delay
  }

  lemma UnbrokenOnce(snapshots: seq<Snapshot>, s: nat, t: nat, status: Status, since: int, other: int)
    requires Unbroken(snapshots, s, status, since) && Unbroken(snapshots, t, status, other)
    ensures s == t && since == other
  {
  }

  /** Exactly when a snapshot adds an event: on the return to operational while an alert
      stands, on unavailability, and on degradation unbroken for the delay, unless an alert
      of that very status stands. The event tells capability, status, time and the start of
      the episode, and a recovery tells the alert it answers. */
  lemma EmitsIff(capability: string, snapshots: seq<Snapshot>, delay: int)
    requires snapshots != []
    ensures var last := snapshots[|snapshots| - 1];
            var before := Run(capability, snapshots[..|snapshots| - 1], delay).log;
            var log := Run(capability, snapshots, delay).log;
            var standing := Standing(before);
            if match last.status
               case Operational => standing.Some?
               case Unavailable => standing != Some(Unavailable)
               case Degraded => standing != Some(Degraded) && DegradedFor(snapshots, delay)
            then
              && |log| == |before| + 1 && log[..|before|] == before
              && var event := log[|before|];
                 && event.key.capability == capability && event.key.status == last.status
                 && event.key.kind == (if last.status == Operational then Recovery else Alert)
                 && event.createdAt == last.generatedAt
                 && event.previousStatus == (if last.status == Operational then standing else None)
                 && exists s: nat :: Unbroken(snapshots, s, last.status, event.key.episodeStartedAt)
            else log == before
  {
    var n := |snapshots| - 1;
    var before := Run(capability, snapshots[..n], delay);
    RunHolds(capability, snapshots[..n], delay);
    NothingStands();
    EpisodeStep(snapshots, before.state);
    var observed := Observe(before.state, snapshots[n]);
    var s: nat :| Unbroken(snapshots, s, observed.observedStatus, observed.observedSince);
    if DegradedFor(snapshots, delay) {
      var t: nat :| t < |snapshots| && Unbroken(snapshots, t, snapshots[n].status, snapshots[t].generatedAt)
        && snapshots[n].generatedAt - snapshots[t].generatedAt >= delay;
      UnbrokenOnce(snapshots, s, t, snapshots[n].status, observed.observedSince, snapshots[t].generatedAt);
    }
    hide Unbroken, WellPaired, EpisodeOf;
  }

  /** A degraded alert needs the full delay of unbroken degraded status. */
  lemma DegradedNeedsDelay(capability: string, snapshots: seq<Snapshot>, delay: int) returns (s: nat)
    requires snapshots != []
    requires var before := Run(capability, snapshots[..|snapshots| - 1], delay).log;
             var after := Run(capability, snapshots, delay).log;
             |after| > |before| && after[|after| - 1].key.kind == Alert && after[|after| - 1].key.status == Degraded
    ensures s < |snapshots| && forall k :: s <= k < |snapshots| ==> snapshots[k].status == Degraded
    ensures snapshots[|snapshots| - 1].generatedAt - snapshots[s].generatedAt >= delay
  {
    var last := |snapshots| - 1;
    RunHolds(capability, snapshots[..last], delay);
    EpisodeStep(snapshots, Run(capability, snapshots[..last], delay).state);
    var observed := Observe(Run(capability, snapshots[..last], delay).state, snapshots[last]);
    s :| Unbroken(snapshots, s, observed.observedStatus, observed.observedSince);
  }

  /** After every snapshot the standing alert is right: none when operational, this
      status when unavailable or degraded for the full delay. */
  lemma StandingAlertIsRight(capability: string, snapshots: seq<Snapshot>, delay: int)
    requires snapshots != []
    ensures var last := snapshots[|snapshots| - 1];
            var h := Run(capability, snapshots, delay);
            && (last.status == Operational ==> Standing(h.log) == None)
            && (last.status == Unavailable ==> Standing(h.log) == Some(Unavailable))
            && (last.status == Degraded && last.generatedAt - h.state.value.observedSince >= delay ==>
                 Standing(h.log) == Some(Degraded))
  {
    RunHolds(capability, snapshots, delay);
  }

  /** Every event belongs to the episode it was emitted in. */
  ghost predicate KeysDistinct(log: seq<Event>) {
    forall i, j :: 0 <= i < j < |log| ==> log[i].key != log[j].key
  }

  /** Episodes of past events started no later than the current one, and the current
      episode's alert of its own status stands if it was emitted. */
  ghost predicate KeysPast(log: seq<Event>, state: AlertState) {
    && (forall i :: 0 <= i < |log| ==> log[i].key.episodeStartedAt <= state.observedSince)
    && (forall i :: 0 <= i < |log| && log[i].key.episodeStartedAt == state.observedSince ==>
          i == |log| - 1 && log[i].key.status == state.observedStatus)
  }

  lemma KeysStep(capability: string, before: History, snapshot: Snapshot, delay: int)
    requires KeysDistinct(before.log) && WellPaired(before.log)
    requires before.state.None? ==> before.log == []
    requires before.state.Some? ==>
      KeysPast(before.log, before.state.value) && before.state.value.observedSince < snapshot.generatedAt
      && before.state.value.alertedStatus == Standing(before.log)
    ensures var observed := Observe(before.state, snapshot);
            var emitted := Emitted(capability, observed, snapshot, delay);
            var log := Extend(before.log, emitted);
            KeysDistinct(log) && KeysPast(log, Settle(observed, snapshot, delay))
  {
    var observed := Observe(before.state, snapshot);
    var emitted := Emitted(capability, observed, snapshot, delay);
    if emitted.Some? {
      forall i | 0 <= i < |before.log| ensures before.log[i].key.episodeStartedAt < observed.observedSince {
        assert PairedAt(before.log, i);
      }
    }
  }

  lemma {:induction false} KeysHold(capability: string, snapshots: seq<Snapshot>, delay: int)
    requires Increasing(snapshots)
    ensures KeysDistinct(Run(capability, snapshots, delay).log)
    ensures var state := Run(capability, snapshots, delay).state;
            state.Some? ==> KeysPast(Run(capability, snapshots, delay).log, state.value)
                            && state.value.observedSince <= snapshots[|snapshots| - 1].generatedAt
  {
    if snapshots != [] {
      var last := |snapshots| - 1;
      var before := Run(capability, snapshots[..last], delay);
      KeysHold(capability, snapshots[..last], delay);
      RunHolds(capability, snapshots[..last], delay);
      hide KeysDistinct, KeysPast, WellPaired, Standing, Emitted, EpisodeOf;
      KeysStep(capability, before, snapshots[last], delay);
    }
  }

  /** What the event store holds after the events of a log were created in order. */
  function StoreAll(log: seq<Event>): map<DedupeKey, Event> {
    if log == [] then map[] else Store(StoreAll(log[..|log| - 1]), Some(log[|log| - 1]))
  }

  lemma {:induction false} DistinctAreStored(log: seq<Event>)
    requires KeysDistinct(log)
    ensures forall e :: e in log ==> e.key in StoreAll(log) && StoreAll(log)[e.key] == e
    ensures forall key :: key in StoreAll(log) ==> exists e :: e in log && e.key == key
  {
    if log != [] {
      var last := |log| - 1;
      assert log == log[..last] + [log[last]];
      DistinctAreStored(log[..last]);
    }
  }

  /** Over every clock and every sequence of statuses, no two events share a dedupe key,
      so an uninterrupted run stores every event it emits. */
  lemma DedupeKeysNeverCollide(capability: string, clock: seq<int>, statuses: seq<Status>, delay: int)
    requires |clock| == |statuses|
    ensures var log := Run(capability, Snapshots(clock, statuses), delay).log;
            KeysDistinct(log) && forall e :: e in log ==> e.key in StoreAll(log) && StoreAll(log)[e.key] == e
  {
    SnapshotsIncrease(clock, statuses);
    KeysHold(capability, Snapshots(clock, statuses), delay);
    DistinctAreStored(Run(capability, Snapshots(clock, statuses), delay).log);
  }

  // ----- Runs with crashes -----

  /** State and stored events after evaluations that may stop half-way. */
  datatype Interrupted = Interrupted(state: Option<AlertState>, events: map<DedupeKey, Event>)

  function RunStopping(capability: string, snapshots: seq<Snapshot>, progress: seq<Progress>, delay: int): Interrupted
    requires |progress| == |snapshots|
  {
    if snapshots == [] then Interrupted(None, map[])
    else
      var last := |snapshots| - 1;
      var before := RunStopping(capability, snapshots[..last], progress[..last], delay);
      EvaluateStopping(capability, before, snapshots[last], progress[last], delay)
  }

  function EvaluateStopping(
    capability: string, before: Interrupted, snapshot: Snapshot, progress: Progress, delay: int): Interrupted {
    var observed := Observe(before.state, snapshot);
    Interrupted(
      Some(if progress.Complete? then Settle(observed, snapshot, delay) else observed),
      if progress.StopsBeforeEmit? then before.events
      else Store(before.events, Emitted(capability, observed, snapshot, delay)))
  }

  /** The evaluation has an event to emit. */
  predicate Due(capability: string, before: Interrupted, snapshot: Snapshot, delay: int) {
    Emitted(capability, Observe(before.state, snapshot), snapshot, delay).Some?
  }

  /** The event that the current episode has due once its delay has passed. */
  function DueKey(capability: string, state: AlertState): DedupeKey {
    DedupeKey(capability, if state.observedStatus == Operational then Recovery
      else Alert, state.observedStatus, state.observedSince)
  }

  function Prefix(
    capability: string, snapshots: seq<Snapshot>, progress: seq<Progress>, delay: int, k: nat): Interrupted
    requires k <= |snapshots| == |progress|
  {
    RunStopping(capability, snapshots[..k], progress[..k], delay)
  }

  /** If the evaluation before `k` stopped with an event to emit, then evaluation `k` has the
      same status, or that event was stored and `k` has an event of its own to emit. */
  ghost predicate Settles(capability: string, snapshots: seq<Snapshot>, progress: seq<Progress>, delay: int, k: nat)
    requires 0 < k < |snapshots| == |progress|
  {
    var stopped := Prefix(capability, snapshots, progress, delay, k);
    !progress[k - 1].Complete?
    && Due(capability, Prefix(capability, snapshots, progress, delay, k - 1), snapshots[k - 1], delay) ==>
      || snapshots[k].status == snapshots[k - 1].status
      || (&& stopped.state.Some? && DueKey(capability, stopped.state.value) in stopped.events
          && Due(capability, stopped, snapshots[k], delay))
  }

  ghost predicate AllSettle(capability: string, snapshots: seq<Snapshot>, progress: seq<Progress>, delay: int)
    requires |snapshots| == |progress|
  {
    forall k: nat :: 0 < k < |snapshots| ==> Settles(capability, snapshots, progress, delay, k)
  }

  lemma SettlesBefore(
    capability: string, snapshots: seq<Snapshot>, progress: seq<Progress>, delay: int, m: nat, k: nat)
    requires 0 < k < m <= |snapshots| == |progress|
    ensures Settles(capability, snapshots[..m], progress[..m], delay, k)
       <==> Settles(capability, snapshots, progress, delay, k)
  {
    assert snapshots[..m][..k] == snapshots[..k] && progress[..m][..k] == progress[..k];
    assert snapshots[..m][..k - 1] == snapshots[..k - 1] && progress[..m][..k - 1] == progress[..k - 1];
  }

  lemma AllSettleBefore(capability: string, snapshots: seq<Snapshot>, progress: seq<Progress>, delay: int, m: nat)
    requires m <= |snapshots| == |progress| && AllSettle(capability, snapshots, progress, delay)
    ensures AllSettle(capability, snapshots[..m], progress[..m], delay)
  {
    hide Settles;
    forall k: nat | 0 < k < m ensures Settles(capability, snapshots[..m], progress[..m], delay, k) {
      SettlesBefore(capability, snapshots, progress, delay, m, k);
    }
  }

  function KeysOf(log: seq<Event>): set<DedupeKey> { set i | 0 <= i < |log| :: log[i].key }

  predicate SameEpisode(a: AlertState, b: AlertState) {
    a.observedStatus == b.observedStatus && a.observedSince == b.observedSince && a.updatedAt == b.updatedAt
  }

  /** The interrupted run is where the uninterrupted one is. */
  ghost predicate Synced(stopping: Interrupted, whole: History) {
    && stopping.events.Keys == KeysOf(whole.log)
    && stopping.state.Some? == whole.state.Some?
    && (stopping.state.Some? ==>
          SameEpisode(stopping.state.value, whole.state.value)
            && stopping.state.value.alertedStatus == whole.state.value.alertedStatus)
  }

  /** The uninterrupted run has emitted the event due, the interrupted one has yet to
      settle it. */
  ghost predicate Pending(capability: string, stopping: Interrupted, whole: History, delay: int) {
    && stopping.state.Some? && whole.state.Some? && SameEpisode(stopping.state.value, whole.state.value)
    && var s := stopping.state.value;
       && stopping.events.Keys + {DueKey(capability, s)} == KeysOf(whole.log)
       && whole.state.value.alertedStatus == (if s.observedStatus == Operational then None else Some(s.observedStatus))
       && s.alertedStatus != whole.state.value.alertedStatus
       && (s.observedStatus == Degraded ==> s.updatedAt - s.observedSince >= delay)
  }

  function EvaluateWhole(capability: string, before: History, snapshot: Snapshot, delay: int): History {
    var observed := Observe(before.state, snapshot);
    History(Some(Settle(observed, snapshot, delay)), Extend(before.log, Emitted(capability, observed, snapshot, delay)))
  }

  lemma KeysExtend(log: seq<Event>, emitted: Option<Event>)
    ensures KeysOf(Extend(log, emitted)) == KeysOf(log) + (if emitted.Some? then {emitted.value.key} else {})
  {
    if emitted.Some? {
      var after := log + [emitted.value];
      assert forall i :: 0 <= i < |log| ==> after[i] == log[i];
      assert after[|log|] == emitted.value;
    }
  }

  lemma KeysStored(events: map<DedupeKey, Event>, emitted: Option<Event>)
    ensures Store(events, emitted).Keys == events.Keys + (if emitted.Some? then {emitted.value.key} else {})
  {
  }

  lemma SyncedStep(
    capability: string, stopping: Interrupted, whole: History, snapshot: Snapshot, progress: Progress, delay: int)
    requires Synced(stopping, whole)
    ensures var after := EvaluateStopping(capability, stopping, snapshot, progress, delay);
            var without := EvaluateWhole(capability, whole, snapshot, delay);
            if progress.Complete? || !Due(capability, stopping, snapshot, delay) then Synced(after, without)
            else Pending(capability, after, without, delay)
  {
    hide KeysOf, Extend, Store;
    var observed, seen := Observe(stopping.state, snapshot), Observe(whole.state, snapshot);
    KeysExtend(whole.log, Emitted(capability, seen, snapshot, delay));
    KeysStored(stopping.events, Emitted(capability, observed, snapshot, delay));
  }

  lemma PendingStep(
    capability: string, stopping: Interrupted, whole: History, snapshot: Snapshot, progress: Progress, delay: int)
    requires Pending(capability, stopping, whole, delay)
    requires snapshot.status == stopping.state.value.observedStatus
      && stopping.state.value.updatedAt < snapshot.generatedAt
    ensures var after := EvaluateStopping(capability, stopping, snapshot, progress, delay);
            var without := EvaluateWhole(capability, whole, snapshot, delay);
            && Due(capability, stopping, snapshot, delay)
            && if progress.Complete? then Synced(after, without) else Pending(capability, after, without, delay)
  {
    hide KeysOf, Extend, Store;
    var observed, seen := Observe(stopping.state, snapshot), Observe(whole.state, snapshot);
    KeysExtend(whole.log, Emitted(capability, seen, snapshot, delay));
    KeysStored(stopping.events, Emitted(capability, observed, snapshot, delay));
  }

  /** Another status after the event was stored, with an event of its own to emit. */
  lemma PendingMoves(
    capability: string, stopping: Interrupted, whole: History, snapshot: Snapshot, progress: Progress, delay: int)
    requires Pending(capability, stopping, whole, delay) && snapshot.status != stopping.state.value.observedStatus
    requires DueKey(capability, stopping.state.value) in stopping.events && Due(capability, stopping, snapshot, delay)
    ensures var after := EvaluateStopping(capability, stopping, snapshot, progress, delay);
            var without := EvaluateWhole(capability, whole, snapshot, delay);
            if progress.Complete? then Synced(after, without) else Pending(capability, after, without, delay)
  {
    hide KeysOf, Extend, Store;
    var observed, seen := Observe(stopping.state, snapshot), Observe(whole.state, snapshot);
    assert stopping.events.Keys == KeysOf(whole.log);
    KeysExtend(whole.log, Emitted(capability, seen, snapshot, delay));
    KeysStored(stopping.events, Emitted(capability, observed, snapshot, delay));
  }

  /** ... and nothing else settles it. */
  lemma PendingSyncs(capability: string, stopping: Interrupted, whole: History, snapshot: Snapshot, delay: int)
    requires Pending(capability, stopping, whole, delay)
    requires forall key :: key in KeysOf(whole.log) ==> key.episodeStartedAt < snapshot.generatedAt
    requires Synced(EvaluateStopping(capability, stopping, snapshot, Complete, delay),
      EvaluateWhole(capability, whole, snapshot, delay))
    ensures snapshot.status == stopping.state.value.observedStatus
      || (DueKey(capability, stopping.state.value) in stopping.events && Due(capability, stopping, snapshot, delay))
  {
    hide KeysOf, Extend, Store;
    var observed, seen := Observe(stopping.state, snapshot), Observe(whole.state, snapshot);
    var due := DueKey(capability, stopping.state.value);
    KeysExtend(whole.log, Emitted(capability, seen, snapshot, delay));
    KeysStored(stopping.events, Emitted(capability, observed, snapshot, delay));
    assert due in KeysOf(whole.log);
  }

  /** Where an interrupted run stands: level with the uninterrupted one, or stopped at an
      evaluation with an event to emit. */
  ghost predicate Stands(capability: string, snapshots: seq<Snapshot>, progress: seq<Progress>, delay: int)
    requires |progress| == |snapshots|
  {
    var stopping, whole := RunStopping(capability, snapshots, progress, delay), Run(capability, snapshots, delay);
    || Synced(stopping, whole)
    || (&& snapshots != [] && !progress[|progress| - 1].Complete? && Pending(capability, stopping, whole, delay)
        && var last := |snapshots| - 1;
           Due(capability, Prefix(capability, snapshots, progress, delay, last), snapshots[last], delay))
  }

  lemma StandsOn(capability: string, snapshots: seq<Snapshot>, progress: seq<Progress>, delay: int)
    requires |progress| == |snapshots| && snapshots != []
    ensures var last := |snapshots| - 1;
            var before := Prefix(capability, snapshots, progress, delay, last);
            && RunStopping(capability, snapshots, progress, delay)
               == EvaluateStopping(capability, before, snapshots[last], progress[last], delay)
            && Run(capability, snapshots, delay)
               == EvaluateWhole(capability, Run(capability, snapshots[..last], delay), snapshots[last], delay)
            && var state := RunStopping(capability, snapshots, progress, delay).state;
               state.Some? && state.value.updatedAt == snapshots[last].generatedAt
               && state.value.observedStatus == snapshots[last].status
  {
  }

  lemma {:induction false} StopsHold(capability: string, snapshots: seq<Snapshot>, progress: seq<Progress>, delay: int)
    requires |progress| == |snapshots| && Increasing(snapshots) && AllSettle(capability, snapshots, progress, delay)
    ensures Stands(capability, snapshots, progress, delay)
  {
    if snapshots == [] {
      NothingYet(capability, delay);
    } else {
      hide RunStopping, Run, EvaluateStopping, EvaluateWhole, Synced, Pending, Due;
      var last := |snapshots| - 1;
      var before := Prefix(capability, snapshots, progress, delay, last);
      var whole := Run(capability, snapshots[..last], delay);
      AllSettleBefore(capability, snapshots, progress, delay, last);
      StopsHold(capability, snapshots[..last], progress[..last], delay);
      StandsOn(capability, snapshots, progress, delay);
      if Synced(before, whole) {
        SyncedStep(capability, before, whole, snapshots[last], progress[last], delay);
      } else {
        StandsOn(capability, snapshots[..last], progress[..last], delay);
        assert snapshots[..last][..last - 1] == snapshots[..last - 1];
        assert progress[..last][..last - 1] == progress[..last - 1];
        assert Settles(capability, snapshots, progress, delay, last);
        if snapshots[last].status == snapshots[last - 1].status {
          PendingStep(capability, before, whole, snapshots[last], progress[last], delay);
        } else {
          PendingMoves(capability, before, whole, snapshots[last], progress[last], delay);
        }
      }
    }
  }

  lemma NothingYet(capability: string, delay: int)
    ensures Synced(RunStopping(capability, [], [], delay), Run(capability, [], delay))
  {
  }

  /** The stored events have the keys of the uninterrupted run, and the same alert stands. */
  ghost predicate Agrees(capability: string, snapshots: seq<Snapshot>, progress: seq<Progress>, delay: int)
    requires |progress| == |snapshots|
  {
    var stopping, whole := RunStopping(capability, snapshots, progress, delay), Run(capability, snapshots, delay);
    && stopping.events.Keys == StoreAll(whole.log).Keys
    && (stopping.state.Some? ==> stopping.state.value.alertedStatus == Standing(whole.log))
  }

  lemma {:induction false} EpisodesAgree(
    capability: string, snapshots: seq<Snapshot>, progress: seq<Progress>, delay: int)
    requires |progress| == |snapshots|
    ensures var stopping := RunStopping(capability, snapshots, progress, delay);
            var whole := Run(capability, snapshots, delay);
            && stopping.state.Some? == whole.state.Some?
            && (stopping.state.Some? ==> SameEpisode(stopping.state.value, whole.state.value))
  {
    if snapshots != [] {
      hide Emitted;
      EpisodesAgree(capability, snapshots[..|snapshots| - 1], progress[..|progress| - 1], delay);
    }
  }

  lemma AgreesIsSynced(capability: string, snapshots: seq<Snapshot>, progress: seq<Progress>, delay: int)
    requires |progress| == |snapshots|
    ensures Agrees(capability, snapshots, progress, delay)
       <==> Synced(RunStopping(capability, snapshots, progress, delay), Run(capability, snapshots, delay))
  {
    hide RunStopping, Run, WellPaired, EpisodeOf, Standing, KeysOf, StoreAll;
    EpisodesAgree(capability, snapshots, progress, delay);
    RunHolds(capability, snapshots, delay);
    KeysStoredAll(Run(capability, snapshots, delay).log);
  }

  /** Over every run of snapshots whose stops settle and whose last evaluation is complete,
      the stops leave no trace in the stored keys or the standing alert. */
  lemma CrashesChangeNothing(
    capability: string, snapshots: seq<Snapshot>, progress: seq<Progress>, delay: int)
    requires |snapshots| == |progress| && Increasing(snapshots)
    requires AllSettle(capability, snapshots, progress, delay)
    requires progress != [] ==> progress[|progress| - 1].Complete?
    ensures Agrees(capability, snapshots, progress, delay)
  {
    hide RunStopping, Run, AllSettle, Agrees;
    StopsHold(capability, snapshots, progress, delay);
    AgreesIsSynced(capability, snapshots, progress, delay);
  }

  /** Every stop is followed by a complete evaluation. */
  ghost predicate Isolated(progress: seq<Progress>) {
    forall k :: 0 <= k < |progress| && !progress[k].Complete? ==> k + 1 < |progress| && progress[k + 1].Complete?
  }

  /** After every complete evaluation nothing has changed. */
  ghost predicate AlwaysAgrees(capability: string, snapshots: seq<Snapshot>, progress: seq<Progress>, delay: int)
    requires |progress| == |snapshots|
  {
    forall m: nat :: 0 < m <= |snapshots| && progress[m - 1].Complete? ==>
      Agrees(capability, snapshots[..m], progress[..m], delay)
  }

  /** The exact condition, over every run in which each stop is followed by a complete
      evaluation. */
  lemma CrashesChangeNothingIff(
    capability: string, snapshots: seq<Snapshot>, progress: seq<Progress>, delay: int)
    requires |snapshots| == |progress| && Increasing(snapshots) && Isolated(progress)
    ensures AlwaysAgrees(capability, snapshots, progress, delay) <==> AllSettle(capability, snapshots, progress, delay)
  {
    hide Agrees, Settles;
    if AllSettle(capability, snapshots, progress, delay) {
      forall m: nat | 0 < m <= |snapshots| && progress[m - 1].Complete?
        ensures Agrees(capability, snapshots[..m], progress[..m], delay)
      {
        AllSettleBefore(capability, snapshots, progress, delay, m);
        CrashesChangeNothing(capability, snapshots[..m], progress[..m], delay);
      }
    }
    if AlwaysAgrees(capability, snapshots, progress, delay) {
      forall k: nat | 0 < k < |snapshots| ensures Settles(capability, snapshots, progress, delay, k) {
        AgreementSettles(capability, snapshots, progress, delay, k);
      }
    }
  }

  lemma AgreementSettles(
    capability: string, snapshots: seq<Snapshot>, progress: seq<Progress>, delay: int, k: nat)
    requires 0 < k < |snapshots| == |progress| && Increasing(snapshots) && Isolated(progress)
    requires AlwaysAgrees(capability, snapshots, progress, delay)
    ensures Settles(capability, snapshots, progress, delay, k)
  {
    hide RunStopping, Run, EvaluateStopping, EvaluateWhole, Synced, Pending, Due, Agrees, KeysOf;
    var before := Prefix(capability, snapshots, progress, delay, k - 1);
    var stopped := Prefix(capability, snapshots, progress, delay, k);
    if !progress[k - 1].Complete? && Due(capability, before, snapshots[k - 1], delay) {
      var whole := Run(capability, snapshots[..k], delay);
      assert snapshots[..k][..k - 1] == snapshots[..k - 1] && progress[..k][..k - 1] == progress[..k - 1];
      assert snapshots[..k + 1][..k] == snapshots[..k] && progress[..k + 1][..k] == progress[..k];
      assert progress[k].Complete?;
      if k == 1 {
        NothingYet(capability, delay);
        assert snapshots[..0] == [] && progress[..0] == [];
      } else {
        assert progress[k - 2].Complete?;
        assert Agrees(capability, snapshots[..k - 1], progress[..k - 1], delay);
        AgreesIsSynced(capability, snapshots[..k - 1], progress[..k - 1], delay);
      }
      StandsOn(capability, snapshots[..k], progress[..k], delay);
      var earlier := Run(capability, snapshots[..k - 1], delay);
      SyncedStep(capability, before, earlier, snapshots[k - 1], progress[k - 1], delay);
      StandsOn(capability, snapshots[..k + 1], progress[..k + 1], delay);
      assert Agrees(capability, snapshots[..k + 1], progress[..k + 1], delay);
      AgreesIsSynced(capability, snapshots[..k + 1], progress[..k + 1], delay);
      PastKeys(capability, snapshots[..k], delay, snapshots[k].generatedAt);
      PendingSyncs(capability, stopped, whole, snapshots[k], delay);
      StandsState(capability, stopped, whole, delay);
    }
  }

  lemma StandsState(capability: string, stopping: Interrupted, whole: History, delay: int)
    requires Pending(capability, stopping, whole, delay)
    ensures stopping.state.Some?
  {
  }

  lemma PastKeys(capability: string, snapshots: seq<Snapshot>, delay: int, now: int)
    requires Increasing(snapshots) && snapshots != [] && snapshots[|snapshots| - 1].generatedAt < now
    ensures forall key :: key in KeysOf(Run(capability, snapshots, delay).log) ==> key.episodeStartedAt < now
  {
    KeysHold(capability, snapshots, delay);
    RunHolds(capability, snapshots, delay);
  }

  /** A run in which a stop changes the stored events: an outage that is over by the next
      snapshot. The uninterrupted run has an alert and a recovery, this one has nothing. */
  lemma CrashCanLoseEpisode(capability: string, delay: int)
    ensures var snapshots := [Snapshot(0, Unavailable), Snapshot(1, Operational)];
            var progress := [StopsBeforeEmit, Complete];
            && RunStopping(capability, snapshots, progress, delay).events == map[]
            && |Run(capability, snapshots, delay).log| == 2 && !AllSettle(capability, snapshots, progress, delay)
  {
    var first, second := Snapshot(0, Unavailable), Snapshot(1, Operational);
    var snapshots, progress := [first, second], [StopsBeforeEmit, Complete];
    assert snapshots[..1] == [first] && snapshots[..0] == [] && [first][..0] == [];
    assert progress[..1] == [StopsBeforeEmit] && progress[..0] == [] && [StopsBeforeEmit][..0] == [];
    var none := Interrupted(None, map[]);
    assert RunStopping(capability, [], [], delay) == none && Run(capability, [], delay) == History(None, []);
    StandsOn(capability, [first], [StopsBeforeEmit], delay);
    StandsOn(capability, snapshots, progress, delay);
    hide RunStopping, Run;
    assert Due(capability, none, first, delay);
    assert !Settles(capability, snapshots, progress, delay, 1);
  }

  /** An event once stored is never replaced, whatever stops and repeats follow. */
  lemma {:induction false} StoredForGood(
    capability: string, snapshots: seq<Snapshot>, progress: seq<Progress>, delay: int, k: nat, key: DedupeKey)
    requires k <= |snapshots| == |progress| && key in Prefix(capability, snapshots, progress, delay, k).events
    ensures var events := RunStopping(capability, snapshots, progress, delay).events;
            key in events && events[key] == Prefix(capability, snapshots, progress, delay, k).events[key]
    decreases |snapshots|
  {
    if k == |snapshots| {
      assert snapshots[..k] == snapshots && progress[..k] == progress;
    } else {
      var last := |snapshots| - 1;
      assert snapshots[..last][..k] == snapshots[..k] && progress[..last][..k] == progress[..k];
      StoredForGood(capability, snapshots[..last], progress[..last], delay, k, key);
    }
  }

  lemma {:induction false} KeysStoredAll(log: seq<Event>)
    ensures StoreAll(log).Keys == KeysOf(log)
  {
    if log != [] {
      var last := |log| - 1;
      KeysStoredAll(log[..last]);
      KeysExtend(log[..last], Some(log[last]));
      KeysStored(StoreAll(log[..last]), Some(log[last]));
      assert log == log[..last] + [log[last]];
    }
  }
}
