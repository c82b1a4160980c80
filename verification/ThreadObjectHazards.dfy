/**
 * What can go wrong, as runs that reach it: both ways an acknowledgement can miss a ready row and
 * leave it stranded, and a newer generation that a failed event leaves behind a retry floor.
 */
module ThreadObjectHazards {
  import opened Common
  import opened DueQueue
  import opened Maintenance
  import opened ThreadScan
  import opened Dispatch
  import opened ThreadObject
  import opened ThreadObjectProofs
  import opened Quiescence
  import opened ThreadObjectRuns

  ghost predicate Reachable(c: Config, w: World) {
    exists start, steps :: Initial(start) && Executable(c, start, steps) && Execute(c, start, steps) == w
  }

  lemma {:induction false} ExecuteAppend(c: Config, w: World, steps: seq<Step>, s: Step)
    requires Executable(c, w, steps) && Enabled(Execute(c, w, steps), s)
    ensures Executable(c, w, steps + [s]) && Execute(c, w, steps + [s]) == Apply(c, Execute(c, w, steps), s)
    decreases steps
  {
    if steps == [] {
      assert steps + [s] == [s];
      assert [s][1..] == [];
    } else {
      assert (steps + [s])[1..] == steps[1..] + [s];
      ExecuteAppend(c, Apply(c, w, steps[0]), steps[1..], s);
    }
  }

  lemma Reach(c: Config, w: World, s: Step) returns (u: World)
    requires Reachable(c, w) && Enabled(w, s)
    ensures u == Apply(c, w, s) && Reachable(c, u)
  {
    u := Apply(c, w, s);
    var start, steps :| Initial(start) && Executable(c, start, steps) && Execute(c, start, steps) == w;
    ExecuteAppend(c, start, steps, s);
    assert Execute(c, start, steps + [s]) == u;
  }

  // ------------------------------------------------------------------ a first event

  const CONFIG := Config(100, 5_000, false)

  /** A first event that has scanned a quiet ledger, selected nothing and not yet scanned again. */
  ghost predicate AboutToScan(w: World, ledger: Ledger, recovering: set<ThreadId>) {
    && w.up && w.delivering && !w.hazard && w.mutations == map[] && w.ledger == ledger
    && ValidDurable(w.durable)
    && w.durable.record == Record(2, 0, None, {}, Some(0), None)
    && w.event.Some? && !w.event.value.finished
    && w.event.value.attempts == multiset{} && w.event.value.pending == recovering && w.event.value.waves == {}
    && (recovering == {} ==> !w.event.value.recheck)
    && w.event.value.reports == map[] && w.event.value.faults == {}
    && w.event.value.observation == Some(Overlap(2, 0))
    && w.event.value.advance.Some?
    && w.event.value.advance.value.phase == Chosen
    && w.event.value.advance.value.started.generation == 2
    && w.event.value.advance.value.activeAtStart == 0
    && w.event.value.advance.value.parked == {}
  }

  /** The Object after its first construction. */
  ghost predicate Constructed(w: World, ledger: Ledger) {
    && w.up && !w.delivering && !w.hazard && w.event.None? && w.mutations == map[] && w.ledger == ledger
    && ValidDurable(w.durable) && w.durable.alarm.Some?
    && w.durable.record == Record(2, 0, None, {}, Some(0), None)
    && w.durable.rows[Native].dueAt == Some(0) && w.durable.rows[Native].notBefore == 0
    && w.durable.rows[Publication].state == Pending
  }

  lemma ReachConstructed(ledger: Ledger) returns (w: World)
    requires WellFormed(ledger)
    ensures Reachable(CONFIG, w) && Constructed(w, ledger)
  {
    var start := World(0, false, false, Durable(InitialRows(), INITIAL_RECORD, false, None), ledger, map[], None,
                       Alone({}, map[]), {}, false);
    InitialHolds(CONFIG, start);
    assert Executable(CONFIG, start, []) && Execute(CONFIG, start, []) == start;
    w := Reach(CONFIG, start, Boot(0, false));
    EnsureAlarmIsSteady(start.durable, CONFIG, 0, 0, false);
    var read := ReadCurrent(start.durable, 0);
    var ready := read.(rows := CheckpointNative(read.rows, ConstructedNative(read, CONFIG, 0)), initialized := true);
    EnsureNextCovers(ready, MinimumDelay(CONFIG));
    assert w.durable == ready.(alarm := w.durable.alarm);
    assert IsDue(ready.rows, Native);
  }

  ghost predicate InEvent(w: World, ledger: Ledger) {
    && w.up && w.delivering && !w.hazard && w.event == Some(FRESH_EVENT) && w.mutations == map[] && w.ledger == ledger
    && ValidDurable(w.durable)
    && w.durable.record == Record(2, 0, None, {}, Some(0), None)
    && NativeActionable(w.durable, w.now)
  }

  lemma ReachEvent(ledger: Ledger) returns (w: World)
    requires WellFormed(ledger)
    ensures Reachable(CONFIG, w) && InEvent(w, ledger)
  {
    var a := ReachConstructed(ledger);
    var b := Reach(CONFIG, a, Tick(Max(a.now, a.durable.alarm.value)));
    var d := Reach(CONFIG, b, Fire);
    w := Reach(CONFIG, d, StartEvent);
  }

  lemma ReachScan(ledger: Ledger, recovering: set<ThreadId>) returns (w: World)
    requires WellFormed(ledger) && Quiet(ledger, Alone({}, map[]))
    requires recovering == set t | t in ledger && Head(ledger[t], Alone({}, map[])).Some?
    ensures Reachable(CONFIG, w) && AboutToScan(w, ledger, recovering)
  {
    var a := ReachBegun(ledger);
    var b := Reach(CONFIG, a, ScanHeads);
    QuietOffersNothing(b, ledger);
    var e, adv := b.event.value, b.event.value.advance.value;
    SelectedIsFresh(b.durable, e, adv, {});
    assert Selected(b.durable, e, adv, {}) == [];
    w := Reach(CONFIG, b, Select({}, {}));
    assert w.event.value.pending == recovering;
  }

  ghost predicate Begun(w: World, ledger: Ledger) {
    && w.up && w.delivering && !w.hazard && w.mutations == map[] && w.ledger == ledger && ValidDurable(w.durable)
    && w.durable.record == Record(2, 0, None, {}, Some(0), None)
    && w.event.Some? && w.event.value.advance.Some?
    && var a := w.event.value.advance.value;
       && w.event.value == FRESH_EVENT.(engaged := true, generation := Some(2), charged := w.event.value.charged,
                                        first := w.event.value.first, advance := Some(a))
       && a.phase == Began && a.started.actionable && a.started.generation == 2 && a.activeAtStart == 0
       && a.dispatch && a.reserved == {} && a.parked == {}
  }

  lemma ReachBegun(ledger: Ledger) returns (w: World)
    requires WellFormed(ledger)
    ensures Reachable(CONFIG, w) && Begun(w, ledger)
  {
    var a := ReachEvent(ledger);
    w := BeginNative(a, ledger);
  }

  lemma BeginNative(a: World, ledger: Ledger) returns (w: World)
    requires Reachable(CONFIG, a) && InEvent(a, ledger)
    ensures Reachable(CONFIG, w) && Begun(w, ledger) && w.durable == BeginPass(a.durable, CONFIG, a.now, 0, None).0 && w.now == a.now
  {
    BeginPassIsSteady(a.durable, CONFIG, a.now, 0, None);
    w := Reach(CONFIG, a, StartAdvance(true, 0, true));
    var begun := BeginPass(a.durable, CONFIG, a.now, 0, None);
    assert begun.1.actionable && w.durable == begun.0;
    var claimed := a.durable.(rows := Claim(a.durable.rows, Native, a.durable.rows[Native].revision, a.now, true), initialized := true);
    ResetAlarmCovers(claimed, a.now + MinimumDelay(CONFIG));
    assert w.durable.record == a.durable.record;
    assert Threads(multiset{}) == {};
  }

  lemma QuietOffersNothing(w: World, ledger: Ledger)
    requires Quiet(ledger, Alone({}, map[]))
    requires w.event.Some? && w.event.value.advance.Some? && w.event.value.advance.value.seen == ledger && w.event.value.advance.value.parked == {}
    requires w.event.value.pending == {} && w.event.value.faults == {} && w.event.value.reports == map[]
    ensures Eligible(w.event.value, w.event.value.advance.value, {}) == {}
  {
    var k := Knows(w.event.value, {});
    forall t | t in ledger ensures !EligibleHead(t, Head(ledger[t], k), k) {
      assert k == Alone({}, map[]) && QuietQueue(Queue(ledger, t), Alone({}, map[]));
      QuietRows(ledger[t], Alone({}, map[]), None);
    }
  }

  /** The event has read the ledger again, from generation `dirty` on. */
  ghost predicate ScannedAgain(w: World, dirty: nat, rows: Ledger, recovering: set<ThreadId>) {
    && Open(w) && InPhase(w, Remaining) && ValidDurable(w.durable) && !w.hazard
    && w.durable.record == Record(dirty, 0, None, {}, Some(0), None)
    && var e := w.event.value;
       && e.attempts == multiset{} && e.pending == recovering && e.reports == map[] && e.faults == {} && e.waves == {}
       && (recovering == {} ==> !e.recheck)
       && e.observation == Some(Overlap(2, 0))
       && var a := e.advance.value;
          && a.rows == rows && a.paged == (RowCount(rows) >= SCAN_PAGE_SIZE)
          && a.started.generation == 2 && a.activeAtStart == 0 && a.parked == {} && a.scanned == dirty
  }

  lemma ScanAgain(w: World, dirty: nat, recovering: set<ThreadId>) returns (u: World)
    requires Reachable(CONFIG, w)
    requires AboutToScan(w.(durable := w.durable.(record := w.durable.record.(dirty := 2)), mutations := map[]), w.ledger, recovering)
    requires w.durable.record.dirty == dirty >= 2
    ensures Reachable(CONFIG, u) && ScannedAgain(u, dirty, w.ledger, recovering)
    ensures u.ledger == w.ledger && u.mutations == w.mutations
  {
    assert Open(w) && InPhase(w, Chosen);
    var a := Reach(CONFIG, w, ReadGeneration);
    assert Open(a) && InPhase(a, Numbered) && a.ledger == w.ledger && a.durable == w.durable && a.mutations == w.mutations;
    u := Reach(CONFIG, a, ScanRemaining);
  }

  // ------------------------------------------------------------------ a stale scan acknowledged

  /** A final scan read as quiet, that something has since outdated. */
  ghost predicate Outdated(w: World, dirty: nat, key: Key) {
    && Open(w) && InPhase(w, Remaining) && w.mutations == map[] && ValidDurable(w.durable)
    && w.durable.record == Record(dirty, 0, None, {}, Some(0), None)
    && Queue(w.ledger, key.thread) == [Row(key, Ready)]
    && var e := w.event.value;
       && e.attempts == multiset{} && e.pending == {} && e.reports == map[] && e.faults == {} && e.waves == {}
       && e.observation == Some(Overlap(2, 0))
       && var a := e.advance.value;
          && Quiet(a.rows, Alone({}, map[]))
          && a.started.generation == 2 && a.activeAtStart == 0 && a.parked == {} && a.scanned == dirty
          && ((a.raced && dirty == 2) || (a.silent && !e.recheck && dirty == 3 && EmptyLedger(a.rows)))
  }

  ghost predicate Misjudged(w: World, dirty: nat, key: Key) {
    && Open(w) && InPhase(w, Classified) && w.mutations == map[] && ValidDurable(w.durable)
    && w.durable.record == Record(dirty, 0, None, {}, Some(0), None)
    && Queue(w.ledger, key.thread) == [Row(key, Ready)]
    && w.event.value.attempts == multiset{} && w.event.value.pending == {} && w.event.value.waves == {}
    && w.event.value.observation == Some(Overlap(2, 0))
    && var a := w.event.value.advance.value;
       && !a.autonomous
       && a.started.generation == 2 && a.activeAtStart == 0 && a.scanned == dirty
       && ((a.raced && dirty == 2) || (a.silent && !w.event.value.recheck && dirty == 3 && EmptyLedger(a.rows)))
  }

  /** The generation is acknowledged and the native lane at rest, with a ready row in the ledger. */
  ghost predicate Overlooked(d: Durable, ledger: Ledger, key: Key) {
    && ValidDurable(d) && d.initialized
    && !Behind(d.record) && d.record.bindingWaits == {} && d.record.registryKey == Some(0)
    && !IsDue(d.rows, Native)
    && Queue(ledger, key.thread) == [Row(key, Ready)]
  }

  ghost predicate MissedInEvent(w: World, key: Key, recheck: bool) {
    && Open(w) && w.hazard && w.mutations == map[] && Overlooked(w.durable, w.ledger, key)
    && w.event.value.advance.None? && w.event.value.attempts == multiset{} && w.event.value.pending == {}
    && w.event.value.waves == {} && (w.event.value.recheck ==> recheck)
  }

  lemma ClassifyOutdated(w: World, dirty: nat, key: Key) returns (u: World)
    requires Reachable(CONFIG, w) && Outdated(w, dirty, key)
    ensures Reachable(CONFIG, u) && Misjudged(u, dirty, key)
  {
    u := Reach(CONFIG, w, Classify);
    assert Knows(w.event.value, {}) == Alone({}, map[]);
  }

  lemma AcknowledgeMisjudged(w: World, dirty: nat, key: Key) returns (u: World)
    requires Reachable(CONFIG, w) && Misjudged(w, dirty, key)
    ensures Reachable(CONFIG, u) && MissedInEvent(u, key, dirty == 2)
  {
    var a := w.event.value.advance.value;
    var scan := ScanOf(w, w.event.value, a, false);
    assert Certified(w.durable.record, scan) == dirty && Acknowledged(w.durable.record, scan) == dirty;
    ReachableIsInitialized(w);
    u := Reach(CONFIG, w, CheckpointScan(false, 0));
    CheckpointKeepsValid(w.durable, CONFIG, w.now, scan, 0);
    assert u.durable.record.dirty == dirty && u.durable.record.processed == dirty && u.durable.record.bindingWaits == {};
  }

  lemma ReachableIsInitialized(w: World)
    requires Reachable(CONFIG, w) && w.up
    ensures w.durable.initialized
  {
    var start, steps :| Initial(start) && Executable(CONFIG, start, steps) && Execute(CONFIG, start, steps) == w;
    InitialHolds(CONFIG, start);
    RunKeepsInvariants(CONFIG, start, steps);
  }

  // ------------------------------------------------------------------ nothing comes back for it

  /** The ready row is forgotten: no event, or one whose native step finds nothing to do. */
  ghost predicate Forgotten(w: World, key: Key) {
    && Overlooked(w.durable, w.ledger, key) && w.mutations == map[]
    && (w.event.Some? ==>
          var e := w.event.value;
          && e.attempts == multiset{} && e.pending == {}
          && (forall wave :: wave in e.waves ==> wave.lane != Native)
          && (e.first.Some? ==> !e.first.value.0.actionable)
          && (e.advance.Some? ==> e.advance.value.phase == Began && !e.advance.value.started.actionable))
  }

  /** A step that is neither a producer's nor the arrival of another binding registry. */
  predicate Unprompted(s: Step) {
    && !s.BeginMutating? && !s.CommitSource? && !s.RecordOnly? && !s.ScheduleLane?
    && (s.Boot? ==> s.registry == 0)
    && (s.StartAdvance? ==> s.registry == 0)
  }

  lemma ForgottenOutsideEvents(c: Config, w: World, s: Step, key: Key)
    requires Forgotten(w, key) && AlarmInv(c, w) && Enabled(w, s) && Unprompted(s)
    requires s.Tick? || s.Boot? || s.Crash? || s.Fire? || s.StartEvent? || s.ReleaseCommitted? || s.EndMutating? || s.Wake? || s.ReturnFromHandler?
    ensures Forgotten(Apply(c, w, s), key)
  {
    if s.Boot? {
      EnsureAlarmIsSteady(w.durable, c, w.now, s.registry, s.notices);
      var read := Noticed(w.durable, w.now, s.notices);
      EnsureNextCovers(read.(rows := CheckpointNative(read.rows, None), initialized := true), w.now + MinimumDelay(c));
    } else if s.Wake? {
      EnsureNextCovers(w.durable, w.now);
    }
  }

  lemma ForgottenInEvents(c: Config, w: World, s: Step, key: Key)
    requires Forgotten(w, key) && AlarmInv(c, w) && Enabled(w, s) && Unprompted(s)
    requires s.StartAdvance? || s.AbandonAdvance? || s.FinishPass? || s.FailPass?
    ensures Forgotten(Apply(c, w, s), key)
  {
    SteadyStepOrAbandon(c, w, s);
    if s.FinishPass? {
      ResetAlarmCovers(w.durable.(rows := CheckpointNative(w.durable.rows, None)), w.now + MinimumDelay(c));
    } else if s.FailPass? {
      assert WithoutNative(map[]) == map[];
      var retry := FailureRetry(w.durable.record, c, w.now, s.jitter, s.observation);
      var rows := RearmRows(CheckpointNative(w.durable.rows, None), c, w.now, s.jitter, s.observation);
      ResetAlarmCovers(w.durable.(record := w.durable.record.(retry := Some(retry)), rows := rows), w.now + MinimumDelay(c));
    }
  }

  lemma SteadyStepOrAbandon(c: Config, w: World, s: Step)
    requires ValidDurable(w.durable) && Enabled(w, s) && (SteadyStep(s) || s.AbandonAdvance?)
    ensures ValidDurable(Apply(c, w, s).durable)
  {
    if SteadyStep(s) { SteadyStepIsSteady(c, w, s); }
  }

  lemma ForgottenInWaves(c: Config, w: World, s: Step, key: Key)
    requires Forgotten(w, key) && AlarmInv(c, w) && Enabled(w, s)
    requires s.ClaimLane? || s.AcknowledgeLane? || s.DropWave?
    ensures Forgotten(Apply(c, w, s), key)
  {
    AlarmKept(c, w, s);
    if s.ClaimLane? {
      ResetAlarmCovers(w.durable.(rows := Claim(w.durable.rows, s.lane, s.revision, w.now, false)), w.now + MinimumDelay(c));
    }
  }

  lemma ForgottenKept(c: Config, w: World, s: Step, key: Key)
    requires Forgotten(w, key) && AlarmInv(c, w) && Enabled(w, s) && Unprompted(s)
    ensures Forgotten(Apply(c, w, s), key)
    ensures !s.Select?
  {
    if s.StartAdvance? || s.AbandonAdvance? || s.FinishPass? || s.FailPass? {
      ForgottenInEvents(c, w, s, key);
    } else if s.ClaimLane? || s.AcknowledgeLane? || s.DropWave? {
      ForgottenInWaves(c, w, s, key);
    } else {
      ForgottenOutsideEvents(c, w, s, key);
    }
  }

  /**
   * Once forgotten, a ready row stays so through any run, alarms, crashes and restarts included,
   * until a producer acts or another binding registry arrives: no native step selects anything.
   */
  lemma {:induction false} ForgottenStays(w: World, steps: seq<Step>, key: Key)
    requires Reachable(CONFIG, w) && Forgotten(w, key) && Executable(CONFIG, w, steps)
    requires forall s :: s in steps ==> Unprompted(s)
    ensures Forgotten(Execute(CONFIG, w, steps), key)
    ensures forall s :: s in steps ==> !s.Select?
    decreases steps
  {
    if steps != [] {
      assert steps[0] in steps && forall s :: s in steps <==> s == steps[0] || s in steps[1..];
      ReachableIsAlarmed(w);
      ForgottenKept(CONFIG, w, steps[0], key);
      var u := Reach(CONFIG, w, steps[0]);
      ForgottenStays(u, steps[1..], key);
    }
  }

  lemma ReachableIsAlarmed(w: World)
    requires Reachable(CONFIG, w)
    ensures AlarmInv(CONFIG, w)
  {
    var start, steps :| Initial(start) && Executable(CONFIG, start, steps) && Execute(CONFIG, start, steps) == w;
    InitialHolds(CONFIG, start);
    RunKeepsInvariants(CONFIG, start, steps);
  }

  /** A ready head that no binding wait parks is never quiet. */
  lemma ForgottenIsNotQuiet(w: World, key: Key, reports: map<Key, Report>)
    requires Forgotten(w, key)
    ensures !Quiescent(w, reports)
  {
    assert !QuietQueue([Row(key, Ready)], Alone({}, reports)) by {
      assert [Row(key, Ready)][0] == Row(key, Ready);
    }
  }

  // ------------------------------------------------------------------ the first hazard

  lemma MutationBegins(d: Durable, now: nat)
    requires ValidDurable(d)
    ensures var e := BeginMutation(d, CONFIG, now, true, false, {});
            ValidDurable(e) && e.record == d.record.(dirty := d.record.dirty + 1)
  {
    BeginMutationIsSteady(d, CONFIG, now, true, false, {});
    EnsureNextCovers(Prearmed(d, CONFIG, now, true, false, {}), now + MinimumDelay(CONFIG));
  }

  lemma AboutToScanAgain(a: World, b: World)
    requires AboutToScan(a, map[], {}) && b == a.(durable := b.durable, mutations := b.mutations)
    requires ValidDurable(b.durable) && b.durable.record == a.durable.record.(dirty := 3)
    ensures AboutToScan(b.(durable := b.durable.(record := b.durable.record.(dirty := 2)), mutations := map[]), b.ledger, {})
    ensures b.durable.record.dirty == 3
  {
  }

  lemma ReachUnseenMutation() returns (w: World)
    ensures Reachable(CONFIG, w) && ScannedAgain(w, 3, map[], {}) && w.ledger == map[]
    ensures w.mutations.Keys == {1} && w.mutations[1].origin.Source?
  {
    var a := ReachScan(map[], {});
    MutationBegins(a.durable, a.now);
    var b := Reach(CONFIG, a, BeginMutating(1, Source, {}));
    assert b == a.(durable := b.durable, mutations := b.mutations);
    assert b.mutations.Keys == {1} && b.mutations[1].origin.Source?;
    AboutToScanAgain(a, b);
    w := ScanAgain(b, 3, {});
  }

  lemma ReachUnseenCommit(key: Key) returns (w: World)
    ensures Reachable(CONFIG, w) && Outdated(w, 3, key)
  {
    var a := ReachUnseenMutation();
    var rows: Ledger := map[key.thread := [Row(key, Ready)]];
    var b := Reach(CONFIG, a, CommitSource(1, rows, false, 0, {}));
    w := Reach(CONFIG, b, EndMutating(1));
    assert w.mutations == map[];
  }

  /** An event that overlooked a row ends successfully, and its delivery with it. */
  lemma FinishOverlooking(w: World, key: Key) returns (u: World)
    requires Reachable(CONFIG, w) && MissedInEvent(w, key, false)
    ensures Reachable(CONFIG, u) && u.hazard && u.event.None? && !u.delivering && Forgotten(u, key)
  {
    ReachableIsAlarmed(w);
    var a := Reach(CONFIG, w, FinishPass(None));
    FinishEventIsSteady(w.durable, CONFIG, w.now, 0, w.event.value.generation, None);
    ResetAlarmCovers(w.durable.(rows := CheckpointNative(w.durable.rows, None)), w.now + MinimumDelay(CONFIG));
    u := Reach(CONFIG, a, ReturnFromHandler);
  }

  /**
   * The first hazard: the empty-scan shortcut certifies the generation read before the scan, so
   * a source commit that is not recorded, between that scan and the checkpoint, is acknowledged
   * unseen. The event ends well, and nothing comes back for the row (`ForgottenStays`).
   */
  lemma UnrecordedCommitIsForgotten(key: Key) returns (w: World)
    ensures Reachable(CONFIG, w) && w.hazard && w.event.None? && !w.delivering && Forgotten(w, key)
    ensures forall reports :: !Quiescent(w, reports)
  {
    var a := ReachUnseenCommit(key);
    var b := ClassifyOutdated(a, 3, key);
    var d := AcknowledgeMisjudged(b, 3, key);
    w := FinishOverlooking(d, key);
    forall reports ensures !Quiescent(w, reports) { ForgottenIsNotQuiet(w, key, reports); }
  }

  // ------------------------------------------------------------------ the second hazard

  function UpTo(n: nat): (s: set<ThreadId>)
    ensures forall t: ThreadId :: t in s <==> t < n
  {
    if n == 0 then {} else UpTo(n - 1) + {n - 1}
  }

  /** `n` Threads, each waiting for something outside. */
  function Waiters(n: nat): Ledger {
    map t | t in UpTo(n) :: [Row(Key(t, 0), Suspended)]
  }

  lemma WaitersFill(n: nat)
    ensures RowCount(Waiters(n)) == n
  {
    PlacesOfWaiters(n);
    CountFirsts(n);
  }

  lemma {:induction false} CountFirsts(n: nat)
    ensures |Firsts(n)| == n
    decreases n
  {
    if n > 0 { CountFirsts(n - 1); }
  }

  function Firsts(n: nat): (s: set<(ThreadId, int)>)
    ensures forall p: (ThreadId, int) :: p in s <==> p.0 < n && p.1 == 0
  {
    if n == 0 then {} else Firsts(n - 1) + {(n - 1, 0)}
  }

  lemma PlacesOfWaiters(n: nat)
    ensures (set t, i | t in Waiters(n) && 0 <= i < |Waiters(n)[t]| :: (t, i)) == Firsts(n)
  {
  }

  lemma WaitersAreQuiet(n: nat)
    ensures WellFormed(Waiters(n)) && Quiet(Waiters(n), Alone({}, map[]))
    ensures UpTo(n) == set t | t in Waiters(n) && Head(Waiters(n)[t], Alone({}, map[])).Some?
  {
    forall t ensures QuietQueue(Queue(Waiters(n), t), Alone({}, map[])) {
      assert Queue(Waiters(n), t) == [] || (Queue(Waiters(n), t)[0] == Row(Key(t, 0), Suspended) && Queue(Waiters(n), t)[1..] == []);
    }
    forall t | t in Waiters(n) ensures Head(Waiters(n)[t], Alone({}, map[])).Some? {
      assert Waiters(n)[t][0] == Row(Key(t, 0), Suspended);
    }
  }

  /** All recoveries but the first Thread's end before the final scan. */
  lemma {:induction false} RecoverTheRest(w: World, ledger: Ledger, n: nat) returns (u: World)
    requires n >= 1 && Reachable(CONFIG, w) && AboutToScan(w, ledger, UpTo(n))
    ensures Reachable(CONFIG, u) && AboutToScan(u, ledger, {0})
    decreases n
  {
    if n == 1 {
      assert UpTo(1) == {0};
      u := w;
    } else {
      assert n - 1 in UpTo(n);
      var a := Reach(CONFIG, w, RecoveryEnds(n - 1, map[], false));
      assert UpTo(n) - {n - 1} == UpTo(n - 1) && 0 in UpTo(n - 1);
      assert a.event.value.reports == map[] && a.event.value.faults == {};
      u := RecoverTheRest(a, ledger, n - 1);
    }
  }

  lemma ReachFullScan(n: nat) returns (w: World)
    requires n >= SCAN_PAGE_SIZE
    ensures Reachable(CONFIG, w) && ScannedAgain(w, 2, Waiters(n), {0})
    ensures w.ledger == Waiters(n) && w.mutations == map[] && w.event.value.advance.value.paged
  {
    WaitersAreQuiet(n);
    WaitersFill(n);
    var a := ReachScan(Waiters(n), UpTo(n));
    var b := RecoverTheRest(a, Waiters(n), n);
    w := ScanAgain(b, 2, {0});
  }

  lemma RecoverBetweenPages(b: World, rows: Ledger, key: Key) returns (w: World)
    requires Reachable(CONFIG, b) && ScannedAgain(b, 2, rows, {key.thread}) && b.mutations == map[]
    requires b.event.value.advance.value.paged && b.ledger == rows && Queue(rows, key.thread) != []
    requires Quiet(rows, Alone({}, map[]))
    ensures Reachable(CONFIG, w) && Outdated(w, 2, key)
  {
    var d := Reach(CONFIG, b, RecoveryWrites(key.thread, [Row(key, Ready)]));
    assert d == b.(ledger := d.ledger) && Queue(d.ledger, key.thread) == [Row(key, Ready)];
    w := EndRecovery(d, rows, key);
  }

  lemma EndRecovery(d: World, rows: Ledger, key: Key) returns (w: World)
    requires Reachable(CONFIG, d) && d.mutations == map[] && ScannedAgain(d, 2, rows, {key.thread})
    requires d.event.value.advance.value.paged && Queue(rows, key.thread) != []
    requires Quiet(rows, Alone({}, map[]))
    requires Queue(d.ledger, key.thread) == [Row(key, Ready)]
    ensures Reachable(CONFIG, w) && Outdated(w, 2, key)
  {
    w := Reach(CONFIG, d, RecoveryEnds(key.thread, map[], false));
    assert w.event.value.reports == map[];
    assert w.event.value.pending == {};
    assert w.event.value.faults == {};
  }

  lemma ReachOutdatedPage(n: nat, key: Key) returns (w: World)
    requires n >= SCAN_PAGE_SIZE && key == Key(0, 0)
    ensures Reachable(CONFIG, w) && Outdated(w, 2, key)
  {
    var a := ReachFullScan(n);
    WaitersAreQuiet(n);
    assert key.thread in UpTo(n) && Queue(Waiters(n), key.thread) == [Row(key, Suspended)];
    w := RecoverBetweenPages(a, Waiters(n), key);
  }

  /** The event owes itself one more native step, but the Object is evicted before it. */
  lemma CrashOverlooking(w: World, key: Key) returns (u: World)
    requires Reachable(CONFIG, w) && MissedInEvent(w, key, true)
    ensures Reachable(CONFIG, u) && u.hazard && u.up && u.event.None? && Forgotten(u, key)
  {
    ReachableIsAlarmed(w);
    var a := Reach(CONFIG, w, Crash);
    ReachableIsAlarmed(a);
    u := Reach(CONFIG, a, Boot(0, false));
    ForgottenOutsideEvents(CONFIG, a, Boot(0, false), key);
  }

  /**
   * The second hazard, with any number of waiting Threads from a full page on: a final scan reads
   * a Thread's waiting row, the recovery of that Thread makes the row ready and ends while the
   * next page is read, and the scan is acknowledged. The event would scan once more; if the Object
   * is evicted first, nothing comes back for the row.
   */
  lemma RecoveryBetweenPagesIsForgotten(n: nat) returns (w: World)
    requires n >= SCAN_PAGE_SIZE
    ensures Reachable(CONFIG, w) && w.hazard && w.up && w.event.None? && Forgotten(w, Key(0, 0))
    ensures forall reports :: !Quiescent(w, reports)
  {
    var key := Key(0, 0);
    var b := ReachOutdatedPage(n, key);
    var d := ClassifyOutdated(b, 2, key);
    var e := AcknowledgeMisjudged(d, 2, key);
    w := CrashOverlooking(e, key);
    forall reports ensures !Quiescent(w, reports) { ForgottenIsNotQuiet(w, key, reports); }
  }

  // ------------------------------------------------------------------ behind a retry floor

  /**
   * A newer generation that is not retried within the minimum delay: an event charges the native
   * lane, a mutation prearms but has not recorded anything yet, and the event fails.
   */
  lemma PrearmedGenerationCanWaitForTheFloor(jitter: real) returns (w: World, u: World)
    requires 0.0 <= jitter < 1.0
    ensures Reachable(CONFIG, w) && w.event.Some? && w.event.value.generation.Some?
    ensures var o := Observation(w.event.value.generation.value, false, map[], map[]);
            && Enabled(w, FailPass(true, jitter, o)) && u == Apply(CONFIG, w, FailPass(true, jitter, o)) && Reachable(CONFIG, u)
    ensures u.durable.record.dirty > w.event.value.generation.value && u.mutations != map[]
    ensures IsDue(u.durable.rows, Native) && u.durable.rows[Native].dueAt.value > u.now + MinimumDelay(CONFIG)
  {
    var a := ReachCharged(map[]);
    MutationBegins(a.durable, a.now);
    w := Reach(CONFIG, a, BeginMutating(1, Source, {}));
    PrearmedKeepsFloor(a.durable, a.now);
    var o := Observation(2, false, map[], map[]);
    u := Reach(CONFIG, w, FailPass(true, jitter, o));
    assert 1 in WithoutNative(w.mutations);
    FailureLeavesFloor(w.durable, w.now, jitter, o, |WithoutNative(w.mutations)|);
  }

  /** A charge puts the native lane's floor at least a second away. */
  lemma ReachCharged(ledger: Ledger) returns (w: World)
    requires WellFormed(ledger)
    ensures Reachable(CONFIG, w) && Begun(w, ledger) && w.durable.rows[Native].notBefore >= w.now + 1_000
    ensures !IsParked(w.durable.rows, Publication)
  {
    var a := ReachEvent(ledger);
    BeginPassIsSteady(a.durable, CONFIG, a.now, 0, None);
    w := BeginNative(a, ledger);
    var claimed := a.durable.(rows := Claim(a.durable.rows, Native, a.durable.rows[Native].revision, a.now, true), initialized := true);
    ResetAlarmCovers(claimed, a.now + MinimumDelay(CONFIG));
  }

  lemma PrearmedKeepsFloor(d: Durable, now: nat)
    requires ValidDurable(d)
    ensures var e := BeginMutation(d, CONFIG, now, true, false, {});
            Native in e.rows && e.rows[Native].notBefore == d.rows[Native].notBefore && (IsParked(e.rows, Publication) <==> IsParked(d.rows, Publication))
  {
    EnsureNextCovers(Prearmed(d, CONFIG, now, true, false, {}), now + MinimumDelay(CONFIG));
  }

  lemma FailureLeavesFloor(d: Durable, now: nat, jitter: real, o: Observation, active: nat)
    requires ValidDurable(d) && Behind(d.record) && active > 0 && d.rows[Native].notBefore >= now + 1_000 && !IsParked(d.rows, Publication)
    requires 0.0 <= jitter < 1.0
    ensures var e := RearmFailure(d, CONFIG, now, jitter, o, active);
            e.record.dirty == d.record.dirty && IsDue(e.rows, Native) && e.rows[Native].dueAt.value > now + MinimumDelay(CONFIG)
  {
    NewerGenerationIsRetriedWithinTheMinimumDelayExactlyWhen(d, CONFIG, now, jitter, o, active);
    RearmFailureIsSteady(d, CONFIG, now, jitter, o, active);
  }
}
