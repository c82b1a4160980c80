/**
 * Quiescence soundness: an acknowledged generation means the ledger holds no work that would
 * run by itself. The invariant follows what each phase of the native step knows, against every
 * interleaving of producers, Attempts, recoveries and crashes.
 */
module Quiescence {
  import opened Common
  import opened DueQueue
  import opened Maintenance
  import opened ThreadScan
  import opened Dispatch
  import opened ThreadObject
  import opened ThreadObjectProofs

  ghost predicate AtRest(w: World) {
    !w.hazard && !Behind(w.durable.record)
  }

  /** The binding waits a certificate relies on are still durable. */
  ghost predicate ParkedJustified(l: Ledger, parked: set<Key>, waits: set<Key>) {
    forall t, r :: r in Queue(l, t) && r.key in parked ==> r.key in waits
  }

  ghost predicate ReportsAgree(l: Ledger, a: map<Key, Report>, b: map<Key, Report>) {
    forall t, r :: r in Queue(l, t) ==> (r.key in a <==> r.key in b) && (r.key in a ==> a[r.key] == b[r.key])
  }

  ghost predicate Certificate(w: World) {
    && w.certified.pending == {} && w.certified.faults == {}
    && Quiet(w.ledger, w.certified)
    && ParkedJustified(w.ledger, w.certified.parked, w.durable.record.bindingWaits)
  }

  function Alone(parked: set<Key>, reports: map<Key, Report>): Knowledge {
    Knowledge({}, {}, parked, reports)
  }

  /** While settled, an event runs no Attempt, recovers only empty Threads and knows nothing new. */
  ghost predicate SettledEvent(w: World, e: Event) {
    && e.attempts == multiset{}
    && (forall t :: t in e.pending ==> Queue(w.ledger, t) == [])
    && (e.engaged ==> e.recoveryStarted && ReportsAgree(w.ledger, e.reports, w.certified.reports))
  }

  ghost predicate SettledAdvance(w: World, a: Advance) {
    && (a.phase == Scanned ==> SameRows(a.seen, w.ledger) && ParkedJustified(w.ledger, w.certified.parked, a.parked))
    && (a.phase == Remaining || a.phase == Classified ==> SameRows(a.rows, w.ledger))
  }

  /** The final scan still describes the ledger, but for Threads whose recovery is unfinished. */
  ghost predicate ScanHolds(w: World, e: Event, a: Advance) {
    forall t :: (t !in e.pending && !a.raced ==> Queue(a.rows, t) == Queue(w.ledger, t))
                && (Queue(a.rows, t) == [] ==> Queue(w.ledger, t) == [])
  }

  ghost predicate VerdictHolds(w: World, e: Event, a: Advance) {
    && SameRows(a.rows, w.ledger)
    && Quiet(a.rows, Alone(a.parked, e.reports))
    && (forall t :: t in e.pending ==> Queue(a.rows, t) == [])
  }

  /** Nothing has been committed unseen since the final scan. */
  predicate Unsurprised(w: World, a: Advance) {
    a.scannedAt == w.durable.record.dirty && !a.silent
  }

  ghost predicate AdvanceInv(w: World, e: Event, a: Advance) {
    && (a.started.actionable || a.phase != Began ==> e.engaged)
    && (a.phase != Began ==> a.parked <= w.durable.record.bindingWaits)
    && (a.phase == Scanned ==> WellFormed(a.seen))
    && (a.phase == Remaining || a.phase == Classified ==>
          && WellFormed(a.rows)
          && e.observation.Some?
          && e.observation.value.generation <= a.scannedAt
          && a.scanned <= a.scannedAt <= w.durable.record.dirty)
    && (a.phase == Numbered ==> a.scanned <= w.durable.record.dirty)
    && (a.phase == Remaining && Unsurprised(w, a) ==> ScanHolds(w, e, a))
    && (a.phase == Classified && !a.autonomous && Unsurprised(w, a) && !a.raced ==> VerdictHolds(w, e, a))
    && (a.phase == Began && a.activeAtStart == 0 && a.started.generation == w.durable.record.dirty ==> !SourceActive(w))
  }

  ghost predicate EventInv(w: World, e: Event) {
    && (e.first.Some? ==>
          && (e.first.value.0.actionable ==> e.engaged)
          && (e.first.value.1 == 0 && e.first.value.0.generation == w.durable.record.dirty ==> !SourceActive(w)))
    && (e.observation.Some? && e.observation.value.active == 0 && e.observation.value.generation == w.durable.record.dirty ==>
          && !SourceActive(w)
          && (e.advance.Some? && (e.advance.value.phase == Remaining || e.advance.value.phase == Classified) ==> !e.advance.value.silent))
    && (e.advance.Some? ==> AdvanceInv(w, e, e.advance.value))
  }

  ghost predicate QuietInv(w: World) {
    && WellFormed(w.ledger)
    && (AtRest(w) ==>
          && Certificate(w) && !SourceActive(w)
          && (w.event.Some? ==> SettledEvent(w, w.event.value))
          && (w.event.Some? && w.event.value.advance.Some? ==> SettledAdvance(w, w.event.value.advance.value)))
    && (w.event.Some? ==> EventInv(w, w.event.value))
  }

  ghost predicate Inv(c: Config, w: World) {
    AlarmInv(c, w) && DispatchInv(w) && EnrolmentInv(w) && QuietInv(w)
  }

  // ------------------------------------------------------------------ selection and verdicts

  /** A settled ledger offers nothing to dispatch, whatever faults the event has since learnt. */
  lemma SettledSelectsNothing(w: World, e: Event, a: Advance, stopping: set<ThreadId>)
    requires QuietInv(w) && AtRest(w) && w.event == Some(e) && e.advance == Some(a) && a.phase == Scanned && e.engaged
    ensures Eligible(e, a, stopping) == {}
  {
    var k := Knows(e, a.parked);
    forall t | t in a.seen ensures !EligibleHead(t, Head(a.seen[t], k), k) {
      var q := a.seen[t];
      assert q == Queue(a.seen, t) == Queue(w.ledger, t);
      if t !in k.pending && t !in k.faults && Head(q, k).Some? {
        assert QuietQueue(q, w.certified);
        forall r | r in q ensures r.key.thread == t && (Waiting(r, w.certified) ==> Waiting(r, k)) {
          assert r in Queue(w.ledger, t);
        }
        QuietIsMonotone(q, w.certified, k, None);
        QuietRows(q, k, None);
      }
    }
  }

  /** A verdict without autonomous work: nothing pending was scanned, and the rows wait by themselves. */
  lemma VerdictOfScan(w: World, e: Event, a: Advance)
    requires WellFormed(a.rows) && ScanHolds(w, e, a) && !a.raced
    requires Quiet(a.rows, Knows(e, a.parked))
    ensures VerdictHolds(w, e, a)
  {
    var k := Knows(e, a.parked);
    forall t | t in e.pending ensures Queue(a.rows, t) == [] {
      var q := Queue(a.rows, t);
      if q != [] {
        assert q[0] in q;
        PendingQueueIsAutonomous(q, k, t);
        assert false;
      }
    }
    forall t ensures QuietQueue(Queue(a.rows, t), Alone(a.parked, e.reports)) && Queue(a.rows, t) == Queue(w.ledger, t) {
      QuietIsMonotone(Queue(a.rows, t), k, Alone(a.parked, e.reports), None);
    }
  }

  lemma QuietFollowsReports(l: Ledger, parked: set<Key>, before: map<Key, Report>, after: map<Key, Report>)
    requires Quiet(l, Alone(parked, before)) && ReportsAgree(l, before, after)
    ensures Quiet(l, Alone(parked, after))
  {
    forall t ensures QuietQueue(Queue(l, t), Alone(parked, after)) {
      forall r | r in Queue(l, t) ensures StableExternalWait(r, before) ==> StableExternalWait(r, after) {}
      QuietIsMonotone(Queue(l, t), Alone(parked, before), Alone(parked, after), None);
    }
  }

  lemma QuietOnSameRows(a: Ledger, b: Ledger, k: Knowledge)
    requires SameRows(a, b) && Quiet(a, k)
    ensures Quiet(b, k)
  {
    forall t ensures QuietQueue(Queue(b, t), k) {
      assert Queue(a, t) == Queue(b, t);
    }
  }

  // ------------------------------------------------------------------ producers and the platform

  /** A transaction that leaves the certificate alone, and dirties the record for any new source. */
  ghost predicate OnlyDirties(w: World, u: World) {
    && u == w.(durable := u.durable, mutations := u.mutations)
    && u.durable.record.processed == w.durable.record.processed
    && w.durable.record.dirty <= u.durable.record.dirty
    && u.durable.record.bindingWaits == w.durable.record.bindingWaits
    && (SourceActive(u) ==> SourceActive(w) || w.durable.record.dirty < u.durable.record.dirty)
  }

  lemma QuietKeptByDirtying(c: Config, w: World, u: World)
    requires QuietInv(w) && AlarmInv(c, w) && OnlyDirties(w, u)
    ensures QuietInv(u)
  {
  }

  lemma BeginOnlyDirties(c: Config, w: World, s: Step)
    requires AlarmInv(c, w) && Enabled(w, s) && s.BeginMutating?
    ensures OnlyDirties(w, Apply(c, w, s))
  {
    var invalidates := Invalidates(s.origin);
    BeginMutationIsSteady(w.durable, c, w.now, invalidates, s.origin.NativeSource?, s.lanes);
    EnsureNextCovers(Prearmed(w.durable, c, w.now, invalidates, s.origin.NativeSource?, s.lanes), w.now + MinimumDelay(c));
    var u := Apply(c, w, s);
    if SourceActive(u) && !SourceActive(w) {
      assert s.origin.Source?;
    }
  }

  lemma RecordsOnlyDirty(c: Config, w: World, s: Step)
    requires AlarmInv(c, w) && Enabled(w, s)
    requires s.RecordOnly? || s.ScheduleLane? || s.Wake?
    ensures OnlyDirties(w, Apply(c, w, s).(unserved := w.unserved))
  {
    match s
    case ScheduleLane(at, lane, cursor) =>
      ScheduleIsSteady(w.durable, c, w.now, at, lane, cursor);
      EnsureNextCovers(Enrolled(w.durable, at, lane, cursor), w.now + MinimumDelay(c));
    case Wake =>
      EnsureNextCovers(w.durable, w.now);
    case RecordOnly(_, _, _) =>
  }

  lemma ReleasesOnlyDirty(c: Config, w: World, s: Step)
    requires AlarmInv(c, w) && Enabled(w, s) && (s.ReleaseCommitted? || s.EndMutating?)
    ensures OnlyDirties(w, Apply(c, w, s))
  {
  }

  lemma QuietIgnoresUnserved(w: World, lanes: set<LaneId>)
    ensures QuietInv(w) <==> QuietInv(w.(unserved := lanes))
  {
  }

  lemma QuietKeptByProducers(c: Config, w: World, s: Step)
    requires QuietInv(w) && AlarmInv(c, w) && Enabled(w, s)
    requires s.BeginMutating? || s.RecordOnly? || s.ScheduleLane? || s.Wake? || s.ReleaseCommitted? || s.EndMutating?
    ensures QuietInv(Apply(c, w, s))
  {
    if s.BeginMutating? {
      BeginOnlyDirties(c, w, s);
    } else if s.ReleaseCommitted? || s.EndMutating? {
      ReleasesOnlyDirty(c, w, s);
    } else {
      RecordsOnlyDirty(c, w, s);
    }
    var u := Apply(c, w, s);
    QuietKeptByDirtying(c, w, u.(unserved := w.unserved));
    QuietIgnoresUnserved(u, w.unserved);
  }

  /** A commit is either recorded, and dirties the generation, or leaves its mark on the scan. */
  lemma QuietKeptByCommit(c: Config, w: World, s: Step)
    requires QuietInv(w) && AlarmInv(c, w) && Enabled(w, s) && s.CommitSource?
    ensures QuietInv(Apply(c, w, s))
  {
    assert SourceActive(w);
    if s.recorded {
      RecordProgressIsSteady(w.durable, c, w.now, s.at, false, CommitLanes(w.mutations[s.id], s.lanes + {Native}));
      var u := Apply(c, w, s);
      assert u == w.(ledger := s.ledger, durable := u.durable, unserved := u.unserved);
      QuietKeptByNewLedger(w, u);
    } else {
      QuietKeptBySilence(c, w, s);
    }
  }

  /** A ledger write that dirties the generation while a source mutation is active. */
  lemma QuietKeptByNewLedger(w: World, u: World)
    requires QuietInv(w) && SourceActive(w) && WellFormed(u.ledger)
    requires u == w.(ledger := u.ledger, durable := u.durable, unserved := u.unserved)
    requires u.durable.record.processed == w.durable.record.processed && w.durable.record.dirty < u.durable.record.dirty
    requires w.durable.record.processed <= w.durable.record.dirty && u.durable.record.bindingWaits == w.durable.record.bindingWaits
    requires w.event.Some? && w.event.value.advance.Some? ==> w.event.value.advance.value.started.generation <= w.durable.record.dirty
    requires w.event.Some? && w.event.value.observation.Some? ==> w.event.value.observation.value.generation <= w.durable.record.dirty
    requires w.event.Some? && w.event.value.first.Some? ==> w.event.value.first.value.0.generation <= w.durable.record.dirty
    ensures QuietInv(u)
  {
    assert SourceActive(u);
  }

  lemma QuietKeptBySilence(c: Config, w: World, s: Step)
    requires QuietInv(w) && Enabled(w, s) && s.CommitSource? && !s.recorded && SourceActive(w)
    ensures QuietInv(Apply(c, w, s))
  {
    var u := Apply(c, w, s);
    assert SourceActive(u) && u.durable == w.durable && u.mutations == w.mutations;
  }

  lemma QuietKeptByThePlatform(c: Config, w: World, s: Step)
    requires QuietInv(w) && AlarmInv(c, w) && Enabled(w, s)
    requires s.Tick? || s.Crash? || s.Fire? || s.StartEvent? || s.ReturnFromHandler?
    ensures QuietInv(Apply(c, w, s))
  {
  }

  lemma QuietKeptByEventEnds(c: Config, w: World, s: Step)
    requires QuietInv(w) && AlarmInv(c, w) && DispatchInv(w) && Enabled(w, s)
    requires s.Boot? || s.FinishPass? || s.FailPass?
    ensures QuietInv(Apply(c, w, s))
  {
    SteadyStepIsSteady(c, w, s);
    if s.FinishPass? {
      FinishEventIsSteady(w.durable, c, w.now, |w.mutations|, w.event.value.generation, s.nextAttemptAt);
    }
  }

  // ------------------------------------------------------------------ the native step

  lemma QuietKeptByStart(c: Config, w: World, s: Step)
    requires QuietInv(w) && AlarmInv(c, w) && DispatchInv(w) && Enabled(w, s) && s.StartAdvance?
    ensures QuietInv(Apply(c, w, s))
  {
    BeginPassIsSteady(w.durable, c, w.now, s.registry, w.event.value.charged);
    var u := Apply(c, w, s);
    assert |w.mutations| == 0 ==> w.mutations == map[];
    assert u.mutations == w.mutations && u.ledger == w.ledger;
  }

  lemma QuietKeptByScans(c: Config, w: World, s: Step)
    requires QuietInv(w) && AlarmInv(c, w) && DispatchInv(w) && Enabled(w, s)
    requires s.ScanHeads? || s.LearnFault? || s.ReadGeneration? || s.AbandonAdvance?
    ensures QuietInv(Apply(c, w, s))
  {
  }

  lemma QuietKeptByFinalScan(c: Config, w: World, s: Step)
    requires QuietInv(w) && AlarmInv(c, w) && DispatchInv(w) && Enabled(w, s) && s.ScanRemaining?
    ensures QuietInv(Apply(c, w, s))
  {
  }

  /** A later page only brings the scan closer to the ledger. */
  lemma QuietKeptByPage(c: Config, w: World, s: Step)
    requires QuietInv(w) && AlarmInv(c, w) && DispatchInv(w) && Enabled(w, s) && s.ReadPage?
    ensures QuietInv(Apply(c, w, s))
  {
    var a, b := w.event.value.advance.value, Apply(c, w, s).event.value.advance.value;
    PageRefreshes(a.rows, w.ledger, b.rows, s.from);
  }

  lemma PageRefreshes(rows: Ledger, ledger: Ledger, refreshed: Ledger, from: ThreadId)
    requires refreshed == map t | t in rows.Keys + ledger.Keys :: if t >= from then Queue(ledger, t) else Queue(rows, t)
    ensures forall t: ThreadId :: Queue(refreshed, t) == if t >= from then Queue(ledger, t) else Queue(rows, t)
    ensures WellFormed(rows) && WellFormed(ledger) ==> WellFormed(refreshed)
    ensures SameRows(rows, ledger) ==> SameRows(refreshed, ledger)
  {
  }

  lemma QuietKeptBySelect(c: Config, w: World, s: Step)
    requires QuietInv(w) && AlarmInv(c, w) && DispatchInv(w) && Enabled(w, s) && s.Select?
    ensures QuietInv(Apply(c, w, s))
  {
    var e := w.event.value;
    var a := e.advance.value;
    if AtRest(w) {
      SettledSelectsNothing(w, e, a, s.stopping);
      SelectedIsFresh(w.durable, e, a, s.stopping);
      assert Selected(w.durable, e, a, s.stopping) == [];
    }
  }

  lemma QuietKeptByClassify(c: Config, w: World, s: Step)
    requires QuietInv(w) && AlarmInv(c, w) && DispatchInv(w) && Enabled(w, s) && s.Classify?
    ensures QuietInv(Apply(c, w, s))
  {
    var e := w.event.value;
    var a := e.advance.value;
    if Unsurprised(w, a) && !a.raced && Quiet(a.rows, Knows(e, a.parked)) {
      VerdictOfScan(w, e, a);
    }
  }

  /** An acknowledgement outside the hazards certifies the ledger as it stands. */
  lemma AcknowledgementCertifies(w: World, e: Event, a: Advance, scan: ThreadScanResult)
    requires QuietInv(w) && w.event == Some(e) && e.advance == Some(a) && a.phase == Classified && e.observation.Some?
    requires scan == ScanOf(w, e, a, scan.progressed)
    requires Acknowledged(w.durable.record, scan) != w.durable.record.processed
    requires Acknowledged(w.durable.record, scan) == w.durable.record.dirty
    requires !a.raced && !(a.silent && Certified(w.durable.record, scan) != scan.observed)
    ensures VerdictHolds(w, e, a) && w.mutations == map[]
  {
    assert |w.mutations| == 0;
    assert a.scannedAt == w.durable.record.dirty;
    assert !a.silent;
  }

  lemma QuietKeptByCheckpoint(c: Config, w: World, s: Step)
    requires QuietInv(w) && AlarmInv(c, w) && DispatchInv(w) && Enabled(w, s) && s.CheckpointScan?
    ensures QuietInv(Apply(c, w, s))
  {
    var e := w.event.value;
    var a := e.advance.value;
    var scan := ScanOf(w, e, a, s.progressed);
    var u := Apply(c, w, s);
    CheckpointKeepsValid(w.durable, c, w.now, scan, s.delay);
    var acknowledges := Acknowledged(w.durable.record, scan) != w.durable.record.processed;
    if AtRest(u) && acknowledges {
      AcknowledgementCertifies(w, e, a, scan);
      QuietOnSameRows(a.rows, w.ledger, Alone(a.parked, e.reports));
      CertificateKeepsParked(a.rows, w.ledger, a.parked, w.durable.record.bindingWaits);
    } else if AtRest(u) {
      assert AtRest(w);
      CertificateKeepsParked(a.rows, w.ledger, w.certified.parked * LedgerKeys(a.rows), w.durable.record.bindingWaits);
      forall t, r | r in Queue(w.ledger, t) && r.key in w.certified.parked ensures r.key in u.durable.record.bindingWaits {
        assert r in Queue(a.rows, t);
        assert r.key in LedgerKeys(a.rows);
      }
    }
  }

  lemma CertificateKeepsParked(rows: Ledger, ledger: Ledger, parked: set<Key>, waits: set<Key>)
    requires SameRows(rows, ledger)
    requires parked <= waits || ParkedJustified(ledger, parked, waits)
    ensures ParkedJustified(ledger, parked, waits * LedgerKeys(rows))
  {
    forall t, r | r in Queue(ledger, t) && r.key in parked ensures r.key in waits * LedgerKeys(rows) {
      assert r in Queue(rows, t);
    }
  }

  // ------------------------------------------------------------------ Attempts and recoveries

  /** While an Attempt runs the record is behind, and the native step is at most choosing. */
  lemma AttemptsAreUnsettled(w: World)
    requires QuietInv(w) && DispatchInv(w) && w.event.Some? && w.event.value.attempts != multiset{}
    ensures !AtRest(w)
    ensures w.event.value.advance.Some? ==> w.event.value.advance.value.phase == Began || w.event.value.advance.value.phase == Scanned
  {
  }

  lemma QuietKeptByAttemptWrites(c: Config, w: World, s: Step)
    requires QuietInv(w) && DispatchInv(w) && Enabled(w, s) && s.AttemptWrites?
    ensures QuietInv(Apply(c, w, s))
  {
    AttemptsAreUnsettled(w);
    var u := Apply(c, w, s);
    assert u == w.(ledger := w.ledger[s.thread := s.rows]);
  }

  lemma QuietKeptByAttempts(c: Config, w: World, s: Step)
    requires QuietInv(w) && DispatchInv(w) && Enabled(w, s)
    requires s.AttemptReports? || s.AttemptWaits? || s.AttemptEnds?
    ensures QuietInv(Apply(c, w, s))
  {
    AttemptsAreUnsettled(w);
    var u := Apply(c, w, s);
    assert u.ledger == w.ledger && u.mutations == w.mutations && !AtRest(u);
    assert u.event.value.advance == w.event.value.advance && u.event.value.observation == w.event.value.observation
           && u.event.value.first == w.event.value.first && u.event.value.engaged == w.event.value.engaged;
  }

  lemma QuietKeptByRecoveryWrites(c: Config, w: World, s: Step)
    requires QuietInv(w) && AlarmInv(c, w) && DispatchInv(w) && Enabled(w, s) && s.RecoveryWrites?
    ensures QuietInv(Apply(c, w, s))
  {
    var u := Apply(c, w, s);
    if Queue(w.ledger, s.thread) == [] {
      assert SameRows(w.ledger, u.ledger);
      forall t ensures Queue(u.ledger, t) == Queue(w.ledger, t) {}
    }
  }

  /** A recovery's reports are about its own Thread. */
  lemma ReportsAgreeElsewhere(l: Ledger, before: map<Key, Report>, reports: map<Key, Report>, t: ThreadId)
    requires WellFormed(l) && OnlyOf(reports, t) && Queue(l, t) == []
    ensures ReportsAgree(l, before, before + reports)
    ensures forall other: map<Key, Report> :: ReportsAgree(l, before, other) ==> ReportsAgree(l, before + reports, other)
  {
    forall u, r | r in Queue(l, u) ensures r.key !in reports {
      assert r in l[u];
    }
  }

  lemma VerdictKeptByRecoveryEnd(c: Config, w: World, s: Step)
    requires QuietInv(w) && Enabled(w, s) && s.RecoveryEnds? && InPhase(w, Classified)
    requires VerdictHolds(w, w.event.value, w.event.value.advance.value)
    ensures var u := Apply(c, w, s); VerdictHolds(u, u.event.value, u.event.value.advance.value)
  {
    var e := w.event.value;
    var a := e.advance.value;
    ReportsAgreeElsewhere(a.rows, e.reports, s.reports, s.thread);
    QuietFollowsReports(a.rows, a.parked, e.reports, e.reports + s.reports);
  }

  lemma SettledKeptByRecoveryEnd(c: Config, w: World, s: Step)
    requires QuietInv(w) && Enabled(w, s) && s.RecoveryEnds? && AtRest(w)
    ensures var u := Apply(c, w, s);
            && Certificate(u) && !SourceActive(u) && SettledEvent(u, u.event.value)
            && (u.event.value.advance.Some? ==> SettledAdvance(u, u.event.value.advance.value))
  {
    ReportsAgreeElsewhere(w.ledger, w.event.value.reports, s.reports, s.thread);
  }

  lemma ScanKeptByRecoveryEnd(c: Config, w: World, s: Step)
    requires Enabled(w, s) && s.RecoveryEnds? && InPhase(w, Remaining)
    requires ScanHolds(w, w.event.value, w.event.value.advance.value)
    ensures var u := Apply(c, w, s); u.event.value.advance.Some? && ScanHolds(u, u.event.value, u.event.value.advance.value)
  {
  }

  lemma AdvanceKeptByRecoveryEnd(c: Config, w: World, s: Step)
    requires QuietInv(w) && DispatchInv(w) && Enabled(w, s) && s.RecoveryEnds? && w.event.value.advance.Some?
    ensures var u := Apply(c, w, s); u.event.value.advance.Some? && AdvanceInv(u, u.event.value, u.event.value.advance.value)
  {
    var u := Apply(c, w, s);
    var a, b := w.event.value.advance.value, u.event.value.advance.value;
    assert b == a.(raced := b.raced) && (a.raced ==> b.raced);
    assert u.ledger == w.ledger && u.durable == w.durable && u.mutations == w.mutations;
    if a.phase == Remaining && Unsurprised(w, a) { ScanKeptByRecoveryEnd(c, w, s); }
    if a.phase == Classified && !a.autonomous && Unsurprised(w, a) && !a.raced { VerdictKeptByRecoveryEnd(c, w, s); }
  }

  lemma RecoveryEndShape(c: Config, w: World, s: Step)
    requires Enabled(w, s) && s.RecoveryEnds?
    ensures var u := Apply(c, w, s);
            && u.event.Some? && u == w.(event := u.event)
            && var e, f := w.event.value, u.event.value;
            && f.first == e.first && f.observation == e.observation && f.engaged == e.engaged
            && (f.advance.Some? <==> e.advance.Some?)
            && (f.advance.Some? ==> f.advance.value.phase == e.advance.value.phase && f.advance.value.silent == e.advance.value.silent)
  {
  }

  lemma EventKeptByRecoveryEnd(c: Config, w: World, s: Step)
    requires QuietInv(w) && DispatchInv(w) && Enabled(w, s) && s.RecoveryEnds?
    ensures var u := Apply(c, w, s); u.event.Some? && EventInv(u, u.event.value)
  {
    RecoveryEndShape(c, w, s);
    if w.event.value.advance.Some? { AdvanceKeptByRecoveryEnd(c, w, s); }
    var u := Apply(c, w, s);
    EventOf(u, u.event.value);
  }

  lemma QuietKeptByRecoveryEnd(c: Config, w: World, s: Step)
    requires QuietInv(w) && DispatchInv(w) && Enabled(w, s) && s.RecoveryEnds?
    ensures QuietInv(Apply(c, w, s))
  {
    RecoveryEndShape(c, w, s);
    EventKeptByRecoveryEnd(c, w, s);
    if AtRest(w) { SettledKeptByRecoveryEnd(c, w, s); }
  }

  lemma EventOf(u: World, f: Event)
    requires f.first.Some? ==>
               && (f.first.value.0.actionable ==> f.engaged)
               && (f.first.value.1 == 0 && f.first.value.0.generation == u.durable.record.dirty ==> !SourceActive(u))
    requires f.observation.Some? && f.observation.value.active == 0 && f.observation.value.generation == u.durable.record.dirty ==>
               && !SourceActive(u)
               && (f.advance.Some? && (f.advance.value.phase == Remaining || f.advance.value.phase == Classified) ==> !f.advance.value.silent)
    requires f.advance.Some? ==> AdvanceInv(u, f, f.advance.value)
    ensures EventInv(u, f)
  {
  }

  lemma QuietKeptByWaves(c: Config, w: World, s: Step)
    requires QuietInv(w) && AlarmInv(c, w) && Enabled(w, s)
    requires s.ClaimLane? || s.AcknowledgeLane? || s.DropWave?
    ensures QuietInv(Apply(c, w, s))
  {
    if s.ClaimLane? {
      ResetAlarmCovers(w.durable.(rows := Claim(w.durable.rows, s.lane, s.revision, w.now, false)), w.now + MinimumDelay(c));
    }
    assert Apply(c, w, s).durable.record == w.durable.record;
  }

  lemma QuietKept(c: Config, w: World, s: Step)
    requires QuietInv(w) && AlarmInv(c, w) && DispatchInv(w) && Enabled(w, s)
    ensures QuietInv(Apply(c, w, s))
  {
    if s.BeginMutating? || s.RecordOnly? || s.ScheduleLane? || s.Wake? || s.ReleaseCommitted? || s.EndMutating? {
      QuietKeptByProducers(c, w, s);
    } else if s.CommitSource? {
      QuietKeptByCommit(c, w, s);
    } else if s.Boot? || s.FinishPass? || s.FailPass? {
      QuietKeptByEventEnds(c, w, s);
    } else if s.StartAdvance? {
      QuietKeptByStart(c, w, s);
    } else if s.ScanHeads? || s.LearnFault? || s.ReadGeneration? || s.AbandonAdvance? {
      QuietKeptByScans(c, w, s);
    } else if s.ScanRemaining? {
      QuietKeptByFinalScan(c, w, s);
    } else if s.ReadPage? {
      QuietKeptByPage(c, w, s);
    } else if s.Select? {
      QuietKeptBySelect(c, w, s);
    } else if s.Classify? {
      QuietKeptByClassify(c, w, s);
    } else if s.CheckpointScan? {
      QuietKeptByCheckpoint(c, w, s);
    } else if s.RecoveryWrites? {
      QuietKeptByRecoveryWrites(c, w, s);
    } else if s.RecoveryEnds? {
      QuietKeptByRecoveryEnd(c, w, s);
    } else if s.ClaimLane? || s.AcknowledgeLane? || s.DropWave? {
      QuietKeptByWaves(c, w, s);
    } else if s.AttemptWrites? {
      QuietKeptByAttemptWrites(c, w, s);
    } else if FiberStep(s) {
      QuietKeptByAttempts(c, w, s);
    } else {
      QuietKeptByThePlatform(c, w, s);
    }
  }
}
