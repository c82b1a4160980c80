/**
 * What every run of the Object keeps: the alarm invariant, the dispatch invariant, no lost
 * enrolment, and quiescence. Each has its own inductive invariant; `RunKeepsInvariants` closes
 * them over runs of any length with crashes anywhere.
 */
module ThreadObjectProofs {
  import opened Common
  import opened DueQueue
  import opened Maintenance
  import opened ThreadScan
  import opened Dispatch
  import opened ThreadObject

  // ------------------------------------------------------------------ the alarm

  /** The handler has nothing left to do but return. */
  ghost predicate Finishing(w: World) {
    w.event.Some? && w.event.value.finished
  }

  ghost predicate AlarmInv(c: Config, w: World) {
    && ValidDurable(w.durable)
    && (w.up ==> w.durable.initialized)
    && (w.event.Some? ==> w.up && w.delivering)
    && (w.mutations != map[] ==> w.up)
    && (w.durable.initialized && (!w.delivering || Finishing(w)) ==> Armed(w.durable, c, w.now))
    && (w.event.Some? && w.event.value.observation.Some? ==> w.event.value.observation.value.generation <= w.durable.record.dirty)
    && (w.event.Some? && w.event.value.first.Some? ==> w.event.value.first.value.0.generation <= w.durable.record.dirty)
    && (w.event.Some? && w.event.value.advance.Some? ==> w.event.value.advance.value.started.generation <= w.durable.record.dirty)
  }

  /** What a transaction may do to the lanes other than the native one. */
  ghost predicate KeepsLanes(t: Table, u: Table) {
    forall lane :: lane != Native && lane in t ==>
      && lane in u
      && t[lane].revision <= u[lane].revision
      && (t[lane].dueAt.Some? ==> u[lane].dueAt.Some?)
  }

  /** Recording progress moves every affected lane to a new revision. */
  ghost predicate Renews(t: Table, u: Table, lanes: set<LaneId>) {
    forall lane :: lane in lanes ==> IsDue(u, lane) && (lane in t ==> t[lane].revision < u[lane].revision)
  }

  /** What every transaction but a claim, an acknowledgement and a checkpoint does. */
  ghost predicate Steady(d: Durable, e: Durable) {
    && ValidDurable(e)
    && d.record.dirty <= e.record.dirty
    && d.record.processed == e.record.processed
    && (d.record.dirty == e.record.dirty ==> d.record.bindingWaits == e.record.bindingWaits)
    && (d.initialized ==> e.initialized)
    && KeepsLanes(d.rows, e.rows)
  }

  lemma BeginMutationIsSteady(d: Durable, c: Config, now: nat, invalidates: bool, nativeSource: bool, lanes: set<LaneId>)
    requires ValidDurable(d)
    ensures Steady(d, BeginMutation(d, c, now, invalidates, nativeSource, lanes))
    ensures invalidates && !nativeSource ==> BeginMutation(d, c, now, invalidates, nativeSource, lanes).record.dirty == d.record.dirty + 1
  {
    PrearmedIsSteady(d, c, now, invalidates, nativeSource, lanes);
    EnsureNextCovers(Prearmed(d, c, now, invalidates, nativeSource, lanes), now + MinimumDelay(c));
  }

  lemma PrearmedIsSteady(d: Durable, c: Config, now: nat, invalidates: bool, nativeSource: bool, lanes: set<LaneId>)
    requires ValidDurable(d)
    ensures Steady(d, Prearmed(d, c, now, invalidates, nativeSource, lanes))
    ensures invalidates && !nativeSource ==> Prearmed(d, c, now, invalidates, nativeSource, lanes).record.dirty == d.record.dirty + 1
  {
    PrearmedValid(d, c, now, invalidates, nativeSource, lanes);
    DirtyLanesKeep(d.rows, PrearmedLanes(c, invalidates, lanes), now, false);
  }

  lemma DirtyLanesKeep(t: Table, lanes: set<LaneId>, at: nat, progress: bool)
    requires ValidTable(t)
    ensures KeepsLanes(t, DirtyLanes(t, lanes, at, progress))
  {
    DirtyLanesValid(t, lanes, at, progress);
  }

  lemma RecordProgressIsSteady(d: Durable, c: Config, now: nat, at: nat, nativeSource: bool, lanes: set<LaneId>)
    requires ValidDurable(d)
    ensures var e := RecordProgress(d, c, now, at, nativeSource, lanes);
            && Steady(d, e) && Renews(d.rows, e.rows, AffectedLanes(c, lanes))
            && (Native in AffectedLanes(c, lanes) && !nativeSource ==> e.record.dirty == d.record.dirty + 1)
  {
    DirtyLanesValid(d.rows, AffectedLanes(c, lanes), at, true);
    DirtyLanesRenew(d.rows, AffectedLanes(c, lanes), at);
  }

  lemma DirtyLanesRenew(t: Table, lanes: set<LaneId>, at: nat)
    requires ValidTable(t)
    ensures KeepsLanes(t, DirtyLanes(t, lanes, at, true)) && Renews(t, DirtyLanes(t, lanes, at, true), lanes)
  {
    DirtyLanesValid(t, lanes, at, true);
  }

  lemma EnrolledIsSteady(d: Durable, at: nat, id: LaneId, cursor: Option<nat>)
    requires ValidDurable(d)
    ensures var e := Enrolled(d, at, id, cursor);
            && Steady(d, e)
            && (cursor.Some? && AcceptsCursor(d.rows, id, cursor.value) ==> Renews(d.rows, e.rows, {id}))
  {
    EnrolmentKeepsValid(d.rows, id, at, cursor.Some?, cursor);
    if id == Publication && cursor.Some? {
      EnrolmentKeepsValid(Progress(d.rows, id, at, cursor.value), Native, at, true, None);
    }
  }

  lemma ScheduleIsSteady(d: Durable, c: Config, now: nat, at: nat, id: LaneId, cursor: Option<nat>)
    requires ValidDurable(d)
    ensures var e := Schedule(d, c, now, at, id, cursor);
            && Steady(d, e)
            && (cursor.Some? && AcceptsCursor(d.rows, id, cursor.value) ==> Renews(d.rows, e.rows, {id}))
  {
    EnrolledIsSteady(d, at, id, cursor);
    EnsureNextCovers(Enrolled(d, at, id, cursor), now + MinimumDelay(c));
  }

  lemma EnsureAlarmIsSteady(d: Durable, c: Config, now: nat, key: nat, notices: bool)
    requires ValidDurable(d)
    ensures Steady(d, EnsureAlarm(d, c, now, key, notices)) && Armed(EnsureAlarm(d, c, now, key, notices), c, now)
    ensures EnsureAlarm(d, c, now, key, notices).initialized
  {
    EnsureAlarmArms(d, c, now, key, notices);
    ReadCurrentValid(d, key);
    NoticedValid(ReadCurrent(d, key), now, notices);
    var read := Noticed(ReadCurrent(d, key), now, notices);
    EnsureNextCovers(read.(rows := CheckpointNative(read.rows, ConstructedNative(read, c, now)), initialized := true), now + MinimumDelay(c));
  }

  lemma BeginPassIsSteady(d: Durable, c: Config, now: nat, key: nat, charged: Option<nat>)
    requires ValidDurable(d)
    ensures var begun := BeginPass(d, c, now, key, charged);
            && Steady(d, begun.0) && begun.0.initialized
            && begun.1.generation == begun.0.record.dirty
            && (begun.1.actionable ==> Behind(begun.0.record))
  {
    ReadCurrentValid(d, key);
    var read := ReadCurrent(d, key).(initialized := true);
    if NativeActionable(read, now) {
      var native := read.rows[Native];
      var rows := if charged == Some(native.revision) then read.rows else Claim(read.rows, Native, native.revision, now, true);
      ClaimKeepsValid(read.rows, Native, native.revision, now, true);
      ResetAlarmCovers(read.(rows := rows), now + MinimumDelay(c));
    }
  }

  lemma FinishEventIsSteady(d: Durable, c: Config, now: nat, active: nat, observed: Option<nat>, next: Option<nat>)
    requires ValidDurable(d)
    ensures Steady(d, FinishEvent(d, c, now, active, observed, next)) && Armed(FinishEvent(d, c, now, active, observed, next), c, now)
  {
    FinishEventArms(d, c, now, active, observed, next);
    var native := FinishNative(d.record, c, now, active, observed, next);
    ResetAlarmCovers(d.(rows := CheckpointNative(d.rows, native)), now + MinimumDelay(c));
  }

  lemma RearmFailureIsSteady(d: Durable, c: Config, now: nat, jitter: real, o: Observation, active: nat)
    requires ValidDurable(d) && 0.0 <= jitter < 1.0
    ensures Steady(d, RearmFailure(d, c, now, jitter, o, active))
  {
    RearmFailureArms(d, c, now, jitter, o, active);
    var retry := FailureRetry(d.record, c, now, jitter, o);
    var rows := RearmRows(CheckpointNative(d.rows, RearmNative(d.record, c, now, o, active, retry)), c, now, jitter, o);
    ResetAlarmCovers(d.(record := d.record.(retry := Some(retry)), rows := rows), now + MinimumDelay(c));
    assert KeepsLanes(d.rows, rows);
  }

  lemma CheckpointKeepsValid(d: Durable, c: Config, now: nat, s: ThreadScanResult, delay: nat)
    requires ValidDurable(d) && s.observed <= d.record.dirty
    ensures var e := Checkpoint(d, c, now, s, delay);
            && ValidDurable(e) && KeepsLanes(d.rows, e.rows)
            && e.record.dirty == d.record.dirty && e.record.processed == Acknowledged(d.record, s) && e.initialized == d.initialized
            && e.record.bindingWaits == d.record.bindingWaits * s.remaining
  {
    var canBackoff := !s.overlap && d.record.dirty == s.started;
    CompletionKeepsValid(d.rows, Native, 0, Some(now + if canBackoff then delay else MinimumDelay(c)));
    CompletionKeepsValid(d.rows, Native, 0, Some(now + MinimumDelay(c)));
    CompletionKeepsValid(d.rows, Native, 0, None);
  }

  /** The transactions that only move the record and the lanes forward, as steps of the Object. */
  ghost predicate SteadyStep(s: Step) {
    s.BeginMutating? || s.CommitSource? || s.RecordOnly? || s.ScheduleLane? || s.Wake?
    || s.StartAdvance? || s.FinishPass? || s.FailPass? || s.Boot?
  }

  lemma SteadyStepIsSteady(c: Config, w: World, s: Step)
    requires ValidDurable(w.durable) && Enabled(w, s) && SteadyStep(s)
    ensures Steady(w.durable, Apply(c, w, s).durable)
  {
    var d := w.durable;
    match s
    case BeginMutating(id, origin, lanes) =>
      BeginMutationIsSteady(d, c, w.now, Invalidates(origin), origin.NativeSource?, lanes);
    case CommitSource(id, ledger, recorded, at, lanes) =>
      RecordProgressIsSteady(d, c, w.now, at, false, CommitLanes(w.mutations[id], lanes + {Native}));
    case RecordOnly(id, at, lanes) =>
      RecordProgressIsSteady(d, c, w.now, at, w.mutations[id].origin.NativeSource?, CommitLanes(w.mutations[id], lanes));
    case ScheduleLane(at, lane, cursor) => ScheduleIsSteady(d, c, w.now, at, lane, cursor);
    case Wake => EnsureNextCovers(d, w.now);
    case StartAdvance(_, registry, _) => BeginPassIsSteady(d, c, w.now, registry, w.event.value.charged);
    case FinishPass(next) => FinishEventIsSteady(d, c, w.now, |w.mutations|, w.event.value.generation, next);
    case FailPass(rearm, jitter, o) => RearmFailureIsSteady(d, c, w.now, jitter, o, |WithoutNative(w.mutations)|);
    case Boot(registry, notices) => EnsureAlarmIsSteady(d, c, w.now, registry, notices);
  }

  lemma AlarmKeptByProducers(c: Config, w: World, s: Step)
    requires AlarmInv(c, w) && Enabled(w, s)
    requires s.BeginMutating? || s.CommitSource? || s.RecordOnly? || s.ScheduleLane? || s.Wake?
    ensures AlarmInv(c, Apply(c, w, s))
  {
    SteadyStepIsSteady(c, w, s);
    if w.durable.initialized && (!w.delivering || Finishing(w)) { ProducersKeepArmed(c, w, s); }
    ProducerShape(c, w, s);
  }

  lemma ProducerShape(c: Config, w: World, s: Step)
    requires Enabled(w, s)
    requires s.BeginMutating? || s.CommitSource? || s.RecordOnly? || s.ScheduleLane? || s.Wake?
    ensures var u := Apply(c, w, s);
            && u.now == w.now && u.up == w.up && u.up && u.delivering == w.delivering
            && (u.event.Some? <==> w.event.Some?)
            && (u.event.Some? ==> u.event.value == w.event.value.(advance := u.event.value.advance))
            && (u.event.Some? && u.event.value.advance.Some? ==>
                  w.event.value.advance.Some? && u.event.value.advance.value.started == w.event.value.advance.value.started)
  {
    if !s.CommitSource? { assert Apply(c, w, s).event == w.event; }
  }

  lemma ProducersKeepArmed(c: Config, w: World, s: Step)
    requires ValidDurable(w.durable) && Armed(w.durable, c, w.now) && Enabled(w, s)
    requires s.BeginMutating? || s.CommitSource? || s.RecordOnly? || s.ScheduleLane? || s.Wake?
    ensures Armed(Apply(c, w, s).durable, c, w.now)
  {
    var d := w.durable;
    match s
    case BeginMutating(id, origin, lanes) =>
      BeginMutationKeepsArmed(d, c, w.now, Invalidates(origin), origin.NativeSource?, lanes);
    case CommitSource(id, ledger, recorded, at, lanes) =>
      RecordProgressKeepsArmed(d, c, w.now, at, false, CommitLanes(w.mutations[id], lanes + {Native}));
    case RecordOnly(id, at, lanes) =>
      RecordProgressKeepsArmed(d, c, w.now, at, w.mutations[id].origin.NativeSource?, CommitLanes(w.mutations[id], lanes));
    case ScheduleLane(at, lane, cursor) =>
      ScheduleKeepsArmed(d, c, w.now, at, lane, cursor);
    case Wake =>
      EnsureNextCovers(d, w.now);
  }

  lemma AlarmKeptByMaintenance(c: Config, w: World, s: Step)
    requires AlarmInv(c, w) && Enabled(w, s)
    requires s.StartAdvance? || s.FinishPass? || s.FailPass? || s.Boot?
    ensures AlarmInv(c, Apply(c, w, s))
  {
    SteadyStepIsSteady(c, w, s);
    match s
    case StartAdvance(_, registry, _) =>
      BeginPassIsSteady(w.durable, c, w.now, registry, w.event.value.charged);
    case FinishPass(next) =>
      FinishEventIsSteady(w.durable, c, w.now, |w.mutations|, w.event.value.generation, next);
    case Boot(registry, notices) =>
      EnsureAlarmIsSteady(w.durable, c, w.now, registry, notices);
    case FailPass(_, _, _) =>
  }

  lemma AlarmKeptByWaves(c: Config, w: World, s: Step)
    requires AlarmInv(c, w) && Enabled(w, s)
    requires s.CheckpointScan? || s.ClaimLane? || s.AcknowledgeLane?
    ensures AlarmInv(c, Apply(c, w, s))
  {
    match s
    case CheckpointScan(progressed, delay) =>
      CheckpointKeepsValid(w.durable, c, w.now, ScanOf(w, w.event.value, w.event.value.advance.value, progressed), delay);
    case ClaimLane(lane, revision) =>
      ClaimKeepsValid(w.durable.rows, lane, revision, w.now, false);
      ResetAlarmCovers(w.durable.(rows := Claim(w.durable.rows, lane, revision, w.now, false)), w.now + MinimumDelay(c));
    case AcknowledgeLane(wave, next) =>
      var due: Option<int> := if next.Some? then Some(next.value) else None;
      CompletionKeepsValid(w.durable.rows, wave.lane, wave.revision, due);
  }

  /** The steps of the one native fiber. */
  ghost predicate AdvanceStep(s: Step) {
    s.StartAdvance? || s.ScanHeads? || s.LearnFault? || s.Select? || s.ReadGeneration? || s.ScanRemaining? || s.ReadPage?
    || s.Classify? || s.CheckpointScan? || s.AbandonAdvance?
  }

  /** The steps of the fibers beside it: Attempts, the recovery wave and lane waves. */
  ghost predicate FiberStep(s: Step) {
    s.AttemptWrites? || s.AttemptReports? || s.AttemptWaits? || s.AttemptEnds? || s.RecoveryWrites?
    || s.RecoveryEnds? || s.ClaimLane? || s.AcknowledgeLane? || s.DropWave?
  }

  lemma AlarmKeptByAdvance(c: Config, w: World, s: Step)
    requires AlarmInv(c, w) && Enabled(w, s) && AdvanceStep(s) && !s.StartAdvance? && !s.CheckpointScan?
    ensures AlarmInv(c, Apply(c, w, s))
  {
    var u := Apply(c, w, s);
    assert u.durable == w.durable.(record := w.durable.record.(lastServed := u.durable.record.lastServed));
    assert u.event.Some? && u.event.value.first == w.event.value.first && u.event.value.finished == w.event.value.finished;
  }

  lemma AlarmKeptByFibers(c: Config, w: World, s: Step)
    requires AlarmInv(c, w) && Enabled(w, s) && FiberStep(s) && !s.ClaimLane? && !s.AcknowledgeLane?
    ensures AlarmInv(c, Apply(c, w, s))
  {
    var u := Apply(c, w, s);
    assert u.durable == w.durable.(record := w.durable.record.(bindingWaits := u.durable.record.bindingWaits));
  }

  lemma AlarmKeptByThePlatform(c: Config, w: World, s: Step)
    requires AlarmInv(c, w) && Enabled(w, s) && !SteadyStep(s) && !AdvanceStep(s) && !FiberStep(s)
    ensures AlarmInv(c, Apply(c, w, s))
  {
  }

  lemma AlarmKept(c: Config, w: World, s: Step)
    requires AlarmInv(c, w) && Enabled(w, s)
    ensures AlarmInv(c, Apply(c, w, s))
  {
    if s.BeginMutating? || s.CommitSource? || s.RecordOnly? || s.ScheduleLane? || s.Wake? {
      AlarmKeptByProducers(c, w, s);
    } else if SteadyStep(s) {
      AlarmKeptByMaintenance(c, w, s);
    } else if s.CheckpointScan? || s.ClaimLane? || s.AcknowledgeLane? {
      AlarmKeptByWaves(c, w, s);
    } else if AdvanceStep(s) {
      AlarmKeptByAdvance(c, w, s);
    } else if FiberStep(s) {
      AlarmKeptByFibers(c, w, s);
    } else {
      AlarmKeptByThePlatform(c, w, s);
    }
  }

  // ------------------------------------------------------------------ dispatch

  /**
   * At most two Attempts, at most one a Thread, never one whose old recovery is running. While
   * a step is choosing, the Attempts it reserved against at its start cover those still active.
   */
  ghost predicate DispatchInv(w: World) {
    w.event.Some? ==>
      var e := w.event.value;
      && |e.attempts| <= CONCURRENCY
      && (forall t :: e.attempts[t] <= 1)
      && (forall t :: t in e.pending ==> t !in e.attempts)
      && (!e.recoveryStarted ==> e.attempts == multiset{} && e.pending == {})
      && (e.advance.Some? ==>
            var a := e.advance.value;
            if a.phase == Began || a.phase == Scanned
            then |a.reserved| < CONCURRENCY && forall t :: t in e.attempts ==> t in a.reserved
            else e.attempts == multiset{} && e.recoveryStarted && e.observation.Some?)
      && (e.advance.Some? && e.advance.value.phase == Scanned ==> e.observation.Some?)
  }

  lemma {:induction false} DistinctBound(attempts: multiset<ThreadId>, within: set<ThreadId>)
    requires forall t :: t in attempts ==> t in within && attempts[t] <= 1
    ensures |attempts| <= |within|
    decreases |within|
  {
    if attempts != multiset{} {
      var t :| t in attempts;
      DistinctBound(attempts - multiset{t}, within - {t});
    }
  }

  lemma {:induction false} DistinctMultiset(s: seq<ThreadId>)
    requires forall i, j :: 0 <= i < j < |s| ==> s[i] != s[j]
    ensures forall t :: multiset(s)[t] <= 1
  {
    if s != [] {
      var rest := s[..|s| - 1];
      DistinctMultiset(rest);
      assert s == rest + [s[|s| - 1]];
      assert s[|s| - 1] !in rest;
    }
  }

  lemma ReservedBound(attempts: multiset<ThreadId>)
    requires forall t :: attempts[t] <= 1
    ensures |Threads(attempts)| == |attempts|
  {
    assert attempts == multiset(Threads(attempts));
  }

  /** The Threads a selection adds are new, distinct, within capacity and not recovering. */
  lemma SelectedIsFresh(d: Durable, e: Event, a: Advance, stopping: set<ThreadId>)
    ensures var s := Selected(d, e, a, stopping);
            && (|a.reserved| <= CONCURRENCY ==> |s| + |a.reserved| <= CONCURRENCY)
            && (forall t :: multiset(s)[t] <= 1)
            && (forall t :: t in s ==> t !in a.reserved && t !in e.attempts && t !in e.pending && t in Eligible(e, a, stopping))
  {
    var s := Selected(d, e, a, stopping);
    DistinctMultiset(s);
    assert forall t :: t in s ==> t in Runnable(d, e, a, stopping);
  }

  lemma SelectKeepsDispatch(c: Config, w: World, s: Step)
    requires DispatchInv(w) && Enabled(w, s) && s.Select?
    ensures DispatchInv(Apply(c, w, s))
  {
    var e := w.event.value;
    var a := e.advance.value;
    SelectedIsFresh(w.durable, e, a, s.stopping);
    SelectedFits(e, a, Selected(w.durable, e, a, s.stopping));
    var f := Apply(c, w, s).event.value;
    assert f.attempts == e.attempts + multiset(Selected(w.durable, e, a, s.stopping));
    assert forall t :: t in Eligible(e, a, s.stopping) ==> t !in Backlog(e, a, s.stopping, s.dueFaults);
    assert !e.recoveryStarted ==> e.attempts == multiset{};
  }

  lemma SelectedFits(e: Event, a: Advance, selected: seq<ThreadId>)
    requires forall t :: e.attempts[t] <= 1
    requires |a.reserved| <= CONCURRENCY && |selected| + |a.reserved| <= CONCURRENCY
    requires forall t :: t in e.attempts ==> t in a.reserved
    requires forall t :: multiset(selected)[t] <= 1
    requires forall t :: t in selected ==> t !in e.attempts
    ensures var attempts := e.attempts + multiset(selected);
            && |attempts| <= CONCURRENCY
            && (forall t :: attempts[t] <= 1)
            && (forall t :: t in attempts <==> t in e.attempts || t in selected)
  {
    DistinctBound(e.attempts, a.reserved);
    var attempts := e.attempts + multiset(selected);
    assert |attempts| == |e.attempts| + |selected|;
    assert forall t :: t in selected <==> t in multiset(selected);
  }

  lemma DispatchKeptByAdvance(c: Config, w: World, s: Step)
    requires DispatchInv(w) && Enabled(w, s) && AdvanceStep(s) && !s.Select?
    ensures DispatchInv(Apply(c, w, s))
  {
    if s.StartAdvance? {
      ReservedBound(w.event.value.attempts);
    } else if s.CheckpointScan? || s.AbandonAdvance? {
      assert Apply(c, w, s).event.value.advance.None?;
    } else {
      assert Apply(c, w, s).event.value.attempts == w.event.value.attempts;
    }
  }

  lemma DispatchKeptByAttemptEnd(c: Config, w: World, s: Step)
    requires DispatchInv(w) && Enabled(w, s) && s.AttemptEnds?
    ensures DispatchInv(Apply(c, w, s))
  {
    var before, after := w.event.value.attempts, Apply(c, w, s).event.value.attempts;
    assert after == before - multiset{s.thread};
    assert forall t :: after[t] <= before[t];
    assert |after| < |before|;
  }

  lemma DispatchKeptByFibers(c: Config, w: World, s: Step)
    requires DispatchInv(w) && Enabled(w, s) && FiberStep(s) && !s.AttemptEnds?
    ensures DispatchInv(Apply(c, w, s))
  {
    var e, f := w.event.value, Apply(c, w, s).event.value;
    assert f.attempts == e.attempts && f.pending <= e.pending && f.recoveryStarted == e.recoveryStarted && f.observation == e.observation;
    assert e.advance.None? <==> f.advance.None?;
    assert e.advance.Some? ==> f.advance.value == e.advance.value.(raced := f.advance.value.raced);
  }

  /** Any other step leaves the event's dispatching alone, ends it or begins a fresh one. */
  lemma OutsideShape(c: Config, w: World, s: Step)
    requires Enabled(w, s) && !AdvanceStep(s) && !FiberStep(s)
    ensures SameDispatching(w.event, Apply(c, w, s).event)
  {
    if s.CommitSource? {
      ShapeOfCommits(c, w, s);
    } else if s.FinishPass? {
      ShapeOfEnds(c, w, s);
    } else {
      ShapeOfTheRest(c, w, s);
    }
  }

  ghost predicate SameDispatching(before: Option<Event>, after: Option<Event>) {
    || after.None? || after.value == FRESH_EVENT
    || (before.Some?
        && after.value == before.value.(advance := after.value.advance, finished := after.value.finished)
        && (after.value.advance.Some? <==> before.value.advance.Some?)
        && (after.value.advance.Some? ==> after.value.advance.value == before.value.advance.value.(silent := after.value.advance.value.silent)))
  }

  lemma ShapeOfCommits(c: Config, w: World, s: Step)
    requires Enabled(w, s) && s.CommitSource?
    ensures SameDispatching(w.event, Apply(c, w, s).event)
  {
    var event := Apply(c, w, s).event;
    if s.recorded || w.event.None? || w.event.value.advance.None? {
      assert event == w.event;
    } else {
      Silenced(w.event.value, w.event.value.advance.value);
      assert event == Some(w.event.value.(advance := Some(w.event.value.advance.value.(silent := true))));
    }
  }

  lemma Silenced(e: Event, a: Advance)
    requires e.advance == Some(a)
    ensures SameDispatching(Some(e), Some(e.(advance := Some(a.(silent := true)))))
  {
  }

  lemma ShapeOfEnds(c: Config, w: World, s: Step)
    requires Enabled(w, s) && s.FinishPass?
    ensures SameDispatching(w.event, Apply(c, w, s).event)
  {
    assert Apply(c, w, s).event.value == w.event.value.(finished := true);
  }

  lemma ShapeOfTheRest(c: Config, w: World, s: Step)
    requires Enabled(w, s) && !AdvanceStep(s) && !FiberStep(s) && !s.CommitSource? && !s.FinishPass?
    ensures SameDispatching(w.event, Apply(c, w, s).event)
  {
    var u := Apply(c, w, s);
    assert u.event.None? || u.event.value == FRESH_EVENT || u.event == w.event;
  }

  lemma DispatchKeptOutside(c: Config, w: World, s: Step)
    requires DispatchInv(w) && Enabled(w, s) && !AdvanceStep(s) && !FiberStep(s)
    ensures DispatchInv(Apply(c, w, s))
  {
    OutsideShape(c, w, s);
  }

  lemma DispatchKept(c: Config, w: World, s: Step)
    requires DispatchInv(w) && Enabled(w, s)
    ensures DispatchInv(Apply(c, w, s))
  {
    if s.Select? {
      SelectKeepsDispatch(c, w, s);
    } else if AdvanceStep(s) {
      DispatchKeptByAdvance(c, w, s);
    } else if s.AttemptEnds? {
      DispatchKeptByAttemptEnd(c, w, s);
    } else if FiberStep(s) {
      DispatchKeptByFibers(c, w, s);
    } else {
      DispatchKeptOutside(c, w, s);
    }
  }

  // ------------------------------------------------------------------ enrolments

  /**
   * A lane with a recorded fact that no wave has claimed since is due, and no wave still running
   * could acknowledge it away.
   */
  ghost predicate EnrolmentInv(w: World) {
    && (forall lane :: lane in w.unserved ==> lane != Native && IsDue(w.durable.rows, lane))
    && (w.event.Some? ==> forall v :: v in w.event.value.waves ==>
          && v.lane != Native
          && v.lane in w.durable.rows
          && v.revision <= w.durable.rows[v.lane].revision
          && (v.lane in w.unserved ==> v.revision < w.durable.rows[v.lane].revision))
    && (Finishing(w) ==> w.event.value.waves == {})
  }

  lemma EnrolmentKeptBy(w: World, u: World, renewed: set<LaneId>)
    requires EnrolmentInv(w)
    requires KeepsLanes(w.durable.rows, u.durable.rows) && Renews(w.durable.rows, u.durable.rows, renewed)
    requires u.unserved == w.unserved + renewed - {Native}
    requires u.event.Some? ==> u.event.value.waves == {} || (w.event.Some? && u.event.value.waves <= w.event.value.waves)
    requires Finishing(u) ==> u.event.value.waves == {}
    ensures EnrolmentInv(u)
  {
  }

  lemma EnrolmentKeptByClaim(c: Config, w: World, s: Step)
    requires EnrolmentInv(w) && Enabled(w, s) && s.ClaimLane?
    ensures EnrolmentInv(Apply(c, w, s))
  {
  }

  lemma EnrolmentKeptByAcknowledgement(c: Config, w: World, s: Step)
    requires EnrolmentInv(w) && Enabled(w, s) && s.AcknowledgeLane?
    ensures EnrolmentInv(Apply(c, w, s))
  {
  }

  lemma SteadyStepWaves(c: Config, w: World, s: Step)
    requires (Finishing(w) ==> w.event.value.waves == {}) && Enabled(w, s) && SteadyStep(s)
    ensures var u := Apply(c, w, s);
            && (u.event.Some? ==> w.event.Some? && u.event.value.waves == w.event.value.waves)
            && (Finishing(u) ==> u.event.value.waves == {})
            && (!s.CommitSource? && !s.RecordOnly? && !s.ScheduleLane? ==> u.unserved == w.unserved)
  {
    match s
    case StartAdvance(_, _, _) =>
    case CommitSource(_, _, _, _, _) =>
    case FinishPass(_) =>
    case FailPass(_, _, _) =>
    case _ =>
  }

  lemma EnrolmentKeptBySteadySteps(c: Config, w: World, s: Step)
    requires EnrolmentInv(w) && ValidDurable(w.durable) && Enabled(w, s) && SteadyStep(s)
    ensures EnrolmentInv(Apply(c, w, s))
  {
    SteadyStepWaves(c, w, s);
    SteadyStepIsSteady(c, w, s);
    if s.CommitSource? {
      EnrolmentKeptByCommit(c, w, s);
    } else if s.RecordOnly? {
      EnrolmentKeptByRecord(c, w, s);
    } else if s.ScheduleLane? {
      EnrolmentKeptBySchedule(c, w, s);
    } else {
      EnrolmentKeptBy(w, Apply(c, w, s), {});
    }
  }

  lemma EnrolmentKeptByCommit(c: Config, w: World, s: Step)
    requires EnrolmentInv(w) && ValidDurable(w.durable) && Enabled(w, s) && s.CommitSource?
    ensures EnrolmentInv(Apply(c, w, s))
  {
    SteadyStepWaves(c, w, s);
    if s.recorded {
      var all := CommitLanes(w.mutations[s.id], s.lanes + {Native});
      RecordProgressIsSteady(w.durable, c, w.now, s.at, false, all);
      EnrolmentKeptBy(w, Apply(c, w, s), AffectedLanes(c, all));
    } else {
      EnrolmentKeptBy(w, Apply(c, w, s), {});
    }
  }

  lemma EnrolmentKeptByRecord(c: Config, w: World, s: Step)
    requires EnrolmentInv(w) && ValidDurable(w.durable) && Enabled(w, s) && s.RecordOnly?
    ensures EnrolmentInv(Apply(c, w, s))
  {
    SteadyStepWaves(c, w, s);
    var all := CommitLanes(w.mutations[s.id], s.lanes);
    RecordProgressIsSteady(w.durable, c, w.now, s.at, w.mutations[s.id].origin.NativeSource?, all);
    EnrolmentKeptBy(w, Apply(c, w, s), AffectedLanes(c, all));
  }

  lemma EnrolmentKeptBySchedule(c: Config, w: World, s: Step)
    requires EnrolmentInv(w) && ValidDurable(w.durable) && Enabled(w, s) && s.ScheduleLane?
    ensures EnrolmentInv(Apply(c, w, s))
  {
    SteadyStepWaves(c, w, s);
    ScheduleIsSteady(w.durable, c, w.now, s.at, s.lane, s.cursor);
    var accepted := s.cursor.Some? && AcceptsCursor(w.durable.rows, s.lane, s.cursor.value);
    EnrolmentKeptBy(w, Apply(c, w, s), if accepted then {s.lane} else {});
  }

  lemma EnrolmentKeptByCheckpoint(c: Config, w: World, s: Step)
    requires EnrolmentInv(w) && AlarmInv(c, w) && Enabled(w, s) && s.CheckpointScan?
    ensures EnrolmentInv(Apply(c, w, s))
  {
    CheckpointKeepsValid(w.durable, c, w.now, ScanOf(w, w.event.value, w.event.value.advance.value, s.progressed), s.delay);
    EnrolmentKeptBy(w, Apply(c, w, s), {});
  }

  lemma RestShape(c: Config, w: World, s: Step)
    requires Enabled(w, s) && !SteadyStep(s) && !s.CheckpointScan? && !s.ClaimLane? && !s.AcknowledgeLane?
    ensures var u := Apply(c, w, s);
            && u.durable.rows == w.durable.rows && u.unserved == w.unserved
            && (u.event.Some? ==> u.event.value.waves == {} || (w.event.Some? && u.event.value.waves <= w.event.value.waves))
            && (Finishing(u) ==> Finishing(w))
  {
    match s {
      case Tick(_) =>
      case Crash =>
      case Fire =>
      case StartEvent =>
      case ReleaseCommitted(_) =>
      case EndMutating(_) =>
      case ScanHeads =>
      case LearnFault(_) =>
      case Select(_, _) =>
      case ReadGeneration =>
      case ScanRemaining =>
      case ReadPage(_) =>
      case Classify =>
      case AbandonAdvance =>
      case AttemptWrites(_, _) =>
      case AttemptReports(_, _, _) =>
      case AttemptWaits(_) =>
      case AttemptEnds(_, _) =>
      case RecoveryWrites(_, _) =>
      case RecoveryEnds(_, _, _) =>
      case DropWave(_) =>
      case ReturnFromHandler =>
    }
  }

  lemma EnrolmentKeptByTheRest(c: Config, w: World, s: Step)
    requires EnrolmentInv(w) && Enabled(w, s) && !SteadyStep(s) && !s.CheckpointScan? && !s.ClaimLane? && !s.AcknowledgeLane?
    ensures EnrolmentInv(Apply(c, w, s))
  {
    RestShape(c, w, s);
    EnrolmentKeptBy(w, Apply(c, w, s), {});
  }

  lemma EnrolmentKept(c: Config, w: World, s: Step)
    requires EnrolmentInv(w) && AlarmInv(c, w) && Enabled(w, s)
    ensures EnrolmentInv(Apply(c, w, s))
  {
    if s.ClaimLane? {
      EnrolmentKeptByClaim(c, w, s);
    } else if s.AcknowledgeLane? {
      EnrolmentKeptByAcknowledgement(c, w, s);
    } else if SteadyStep(s) {
      EnrolmentKeptBySteadySteps(c, w, s);
    } else if s.CheckpointScan? {
      EnrolmentKeptByCheckpoint(c, w, s);
    } else {
      EnrolmentKeptByTheRest(c, w, s);
    }
  }
}
