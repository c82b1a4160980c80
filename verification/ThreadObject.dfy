/**
 * One Durable Object as a state machine (packages/platform-cloudflare/src/Alarm.ts). A step is
 * one storage transaction, one gate acquisition or release, one read of the ledger, or one
 * ledger write by a producer, an Attempt or a recovery. A crash may fall between any two steps
 * and erases everything volatile.
 *
 * Two history variables have no counterpart in the code: `certified` is what the last
 * acknowledging scan knew, and `hazard` tells whether the last acknowledgement fell under one of
 * the two schedules that can make it miss work (see `ThreadObjectRuns`).
 */
module ThreadObject {
  import opened Common
  import opened DueQueue
  import opened Maintenance
  import opened ThreadScan
  import opened Dispatch

  /** A source mutation invalidates recovery; a native one runs inside an Attempt or recovery. */
  datatype Origin = Source | NativeSource | HostOnly

  datatype Mutation = Mutation(origin: Origin, enrolled: set<LaneId>, held: set<LaneId>)

  datatype Wave = Wave(lane: LaneId, revision: nat)

  /** How far the single native step has come. */
  datatype Phase = Began | Scanned | Chosen | Numbered | Remaining | Classified

  datatype Advance = Advance(
    phase: Phase,
    started: Started,
    activeAtStart: nat,
    dispatch: bool,
    reserved: set<ThreadId>,
    seen: Ledger,             // the first scan of this step
    parked: set<Key>,         // the binding waits read with it
    scanned: nat,             // the generation read before the final scan
    rows: Ledger,             // the final scan
    paged: bool,              // it takes more than one page
    scannedAt: nat,           // history: the dirty generation at the final scan
    silent: bool,             // history: an unrecorded source commit since the final scan
    raced: bool,              // history: a scanned Thread's recovery ended before classification
    autonomous: bool)

  datatype Overlap = Overlap(generation: nat, active: nat)

  datatype Event = Event(
    engaged: bool,                       // some native step of this event was actionable
    generation: Option<nat>,
    charged: Option<nat>,
    first: Option<(Started, nat)>,
    observation: Option<Overlap>,
    advance: Option<Advance>,
    attempts: multiset<ThreadId>,
    deferred: set<ThreadId>,
    recoveryStarted: bool,
    recheck: bool,                       // a backlog or an Attempt owes the event one more native step
    pending: set<ThreadId>,
    faults: set<ThreadId>,
    reports: map<Key, Report>,
    waves: set<Wave>,
    finished: bool)

  const FRESH_EVENT :=
    Event(false, None, None, None, None, None, multiset{}, {}, false, false, {}, {}, map[], {}, false)

  datatype World = World(
    now: nat,
    up: bool,
    delivering: bool,                   // an alarm delivery whose handler has not finished
    durable: Durable,
    ledger: Ledger,
    mutations: map<nat, Mutation>,
    event: Option<Event>,
    certified: Knowledge,
    unserved: set<LaneId>,                 // history: lanes with a recorded fact no wave has claimed
    hazard: bool)

  datatype Step =
    | Tick(later: nat)
    | Boot(registry: nat, notices: bool)
    | Crash
    | Fire
    | StartEvent
    | BeginMutating(id: nat, origin: Origin, lanes: set<LaneId>)
    | CommitSource(id: nat, ledger: Ledger, recorded: bool, at: nat, lanes: set<LaneId>)
    | RecordOnly(id: nat, at: nat, lanes: set<LaneId>)
    | ReleaseCommitted(id: nat)
    | EndMutating(id: nat)
    | ScheduleLane(at: nat, lane: LaneId, cursor: Option<nat>)
    | Wake
    | StartAdvance(renewed: bool, registry: nat, dispatch: bool)
    | ScanHeads
    | LearnFault(thread: ThreadId)
    | Select(stopping: set<ThreadId>, dueFaults: set<ThreadId>)
    | ReadGeneration
    | ScanRemaining
    | ReadPage(from: ThreadId)
    | Classify
    | CheckpointScan(progressed: bool, delay: nat)
    | AbandonAdvance
    | AttemptWrites(thread: ThreadId, rows: seq<Row>)
    | AttemptReports(thread: ThreadId, reports: map<Key, Report>, faulted: bool)
    | AttemptWaits(key: Key)
    | AttemptEnds(thread: ThreadId, settled: bool)
    | RecoveryWrites(thread: ThreadId, rows: seq<Row>)
    | RecoveryEnds(thread: ThreadId, reports: map<Key, Report>, faulted: bool)
    | ClaimLane(lane: LaneId, revision: nat)
    | AcknowledgeLane(wave: Wave, next: Option<nat>)
    | DropWave(wave: Wave)
    | FinishPass(nextAttemptAt: Option<nat>)
    | ReturnFromHandler
    | FailPass(rearm: bool, jitter: real, observation: Observation)

  function Threads(attempts: multiset<ThreadId>): set<ThreadId> {
    set t | t in attempts
  }

  predicate Invalidates(o: Origin) { !o.HostOnly? }

  predicate SourceActive(w: World) {
    exists id :: id in w.mutations && w.mutations[id].origin.Source?
  }

  predicate Producing(w: World, lane: LaneId) {
    exists id :: id in w.mutations && lane in w.mutations[id].held
  }

  function Knows(e: Event, parked: set<Key>): Knowledge {
    Knowledge(e.pending, e.faults, parked, e.reports)
  }

  /** Threads whose head may be dispatched now. */
  ghost function Eligible(e: Event, a: Advance, stopping: set<ThreadId>): set<ThreadId> {
    var k := Knows(e, a.parked);
    set t | t in a.seen && t !in stopping && EligibleHead(t, Head(a.seen[t], k), k)
  }

  predicate EligibleHead(t: ThreadId, head: Option<Row>, k: Knowledge) {
    && head.Some?
    && t !in k.pending && t !in k.faults
    && !Waiting(head.value, k)
    && (head.value.state == Ready || head.value.key in k.reports)
  }

  ghost function Runnable(d: Durable, e: Event, a: Advance, stopping: set<ThreadId>): set<ThreadId> {
    var k := Knows(e, a.parked);
    set t | t in Eligible(e, a, stopping)
            && t !in a.reserved && t !in e.attempts && t !in e.deferred
            && Head(a.seen[t], k).value.key !in d.record.bindingWaits
  }

  ghost function Selected(d: Durable, e: Event, a: Advance, stopping: set<ThreadId>): seq<ThreadId> {
    if a.dispatch && |a.reserved| < CONCURRENCY
    then Rotation(Runnable(d, e, a, stopping), d.record.lastServed, CONCURRENCY - |a.reserved|)
    else []
  }

  /** Old recovery: Threads with a head that is not eligible, once their fault is due. */
  ghost function Backlog(e: Event, a: Advance, stopping: set<ThreadId>, dueFaults: set<ThreadId>): set<ThreadId> {
    var k := Knows(e, a.parked);
    set t | t in a.seen && Head(a.seen[t], k).Some? && t !in Eligible(e, a, stopping) && (t in e.faults ==> t in dueFaults)
  }

  /** The nonterminal rows of a ledger, and how many of them one page of a scan holds. */
  function RowCount(l: Ledger): nat {
    |set t, i | t in l && 0 <= i < |l[t]| :: (t, i)|
  }

  const SCAN_PAGE_SIZE := 256

  predicate EmptyLedger(l: Ledger) {
    forall t :: t in l ==> l[t] == []
  }

  function LedgerKeys(l: Ledger): set<Key> {
    set t, r | t in l && r in l[t] :: r.key
  }

  ghost function ScanOf(w: World, e: Event, a: Advance, progressed: bool): ThreadScanResult
    requires e.observation.Some?
  {
    Scan(a.autonomous, EmptyLedger(a.rows), e.observation.value.generation, a.started.generation, a.scanned,
         e.observation.value.active > 0 || a.activeAtStart > 0 || |w.mutations| > 0,
         progressed, a.started.stalls, LedgerKeys(a.rows))
  }

  type ThreadScanResult = Maintenance.Scan

  predicate OnlyOf(reports: map<Key, Report>, t: ThreadId) {
    forall k :: k in reports ==> k.thread == t
  }

  predicate RowsOf(rows: seq<Row>, t: ThreadId) {
    forall r :: r in rows ==> r.key.thread == t
  }

  ghost predicate InPhase(w: World, p: Phase) {
    w.event.Some? && w.event.value.advance.Some? && w.event.value.advance.value.phase == p
  }

  ghost predicate Open(w: World) {
    w.up && w.event.Some? && !w.event.value.finished
  }

  ghost predicate Enabled(w: World, s: Step) {
    match s
    case Tick(later) => w.now <= later
    case Boot(_, _) => !w.up
    case Crash => w.up
    case Fire => !w.delivering && w.durable.alarm.Some? && w.durable.alarm.value <= w.now
    case StartEvent => w.up && w.delivering && w.event.None?
    case BeginMutating(id, origin, lanes) =>
      w.up && id !in w.mutations && (origin.NativeSource? ==> Open(w))
    case CommitSource(id, ledger, recorded, at, lanes) =>
      w.up && id in w.mutations && w.mutations[id].origin.Source? && WellFormed(ledger) && at <= w.now
    case RecordOnly(id, at, lanes) =>
      w.up && id in w.mutations && !w.mutations[id].origin.Source? && at <= w.now
    case ReleaseCommitted(id) => w.up && id in w.mutations
    case EndMutating(id) => w.up && id in w.mutations
    case ScheduleLane(at, lane, cursor) => w.up
    case Wake => w.up && w.event.None?
    case StartAdvance(renewed, registry, dispatch) =>
      && Open(w) && w.event.value.advance.None? && |w.event.value.attempts| < CONCURRENCY
      && (!renewed ==> w.event.value.first.Some?)
    case ScanHeads => Open(w) && InPhase(w, Began) && w.event.value.advance.value.started.actionable
    case LearnFault(t) => Open(w) && InPhase(w, Scanned)
    case Select(_, _) => Open(w) && InPhase(w, Scanned)
    case ReadGeneration => Open(w) && InPhase(w, Chosen)
    case ScanRemaining => Open(w) && InPhase(w, Numbered)
    case ReadPage(_) => Open(w) && InPhase(w, Remaining) && w.event.value.advance.value.paged
    case Classify => Open(w) && InPhase(w, Remaining)
    case CheckpointScan(_, _) => Open(w) && InPhase(w, Classified) && w.event.value.observation.Some?
    case AbandonAdvance => Open(w) && InPhase(w, Began)
    case AttemptWrites(t, rows) => Open(w) && t in w.event.value.attempts && RowsOf(rows, t)
    case AttemptReports(t, reports, _) => Open(w) && t in w.event.value.attempts && OnlyOf(reports, t)
    case AttemptWaits(key) => Open(w) && key.thread in w.event.value.attempts
    case AttemptEnds(t, _) => Open(w) && t in w.event.value.attempts
    case RecoveryWrites(t, rows) =>
      // A Thread with nothing left to recover gains nothing from its recovery.
      && Open(w) && t in w.event.value.pending && RowsOf(rows, t) && (Queue(w.ledger, t) == [] ==> rows == [])
      && BetweenPages(w)
    case RecoveryEnds(t, reports, _) => Open(w) && t in w.event.value.pending && OnlyOf(reports, t) && BetweenPages(w)
    case ClaimLane(lane, revision) => Open(w) && lane != Native
    case AcknowledgeLane(wave, _) => Open(w) && wave in w.event.value.waves
    case DropWave(wave) => Open(w) && wave in w.event.value.waves
    case FinishPass(_) =>
      var e := w.event;
      && Open(w) && e.value.advance.None? && !e.value.recheck && e.value.attempts == multiset{} && e.value.pending == {} && e.value.waves == {}
      && forall id :: id in w.mutations ==> !w.mutations[id].origin.NativeSource?
    case ReturnFromHandler => w.up && w.event.Some? && w.event.value.finished
    case FailPass(rearm, jitter, _) => Open(w) && 0.0 <= jitter < 1.0
  }

  /** A scan of one page is classified as it arrives: a recovery can only run on between pages. */
  ghost predicate BetweenPages(w: World) {
    InPhase(w, Remaining) ==> w.event.value.advance.value.paged
  }

  ghost function WithEvent(w: World, e: Event): World {
    w.(event := Some(e))
  }

  ghost function WithAdvance(w: World, a: Advance): World
    requires w.event.Some?
  {
    w.(event := Some(w.event.value.(advance := Some(a))))
  }

  /** The fault status a finished recovery leaves behind, and its reports. */
  ghost function Recovered(e: Event, t: ThreadId, reports: map<Key, Report>, faulted: bool): Event {
    e.(reports := e.reports + reports, faults := if faulted then e.faults + {t} else e.faults - {t})
  }

  /** Interrupting an event's fibers ends the mutations they hold. */
  function WithoutNative(mutations: map<nat, Mutation>): map<nat, Mutation> {
    map id | id in mutations && !mutations[id].origin.NativeSource? :: mutations[id]
  }

  ghost function CommitLanes(m: Mutation, lanes: set<LaneId>): set<LaneId> {
    lanes + m.enrolled
  }

  ghost function Apply(c: Config, w: World, s: Step): World
    requires Enabled(w, s)
  {
    match s
    case Tick(later) => w.(now := later)
    case Boot(registry, notices) => w.(up := true, durable := EnsureAlarm(w.durable, c, w.now, registry, notices))
    case Crash => w.(up := false, mutations := map[], event := None)
    case Fire => w.(delivering := true, durable := w.durable.(alarm := None))
    case StartEvent => WithEvent(w, FRESH_EVENT)
    case BeginMutating(id, origin, lanes) =>
      var enrolled := PrearmedLanes(c, Invalidates(origin), lanes);
      w.(durable := BeginMutation(w.durable, c, w.now, Invalidates(origin), origin.NativeSource?, lanes),
         mutations := w.mutations[id := Mutation(origin, enrolled, enrolled)])
    case CommitSource(id, ledger, recorded, at, lanes) =>
      var all := CommitLanes(w.mutations[id], lanes + {Native});
      if recorded then
        w.(ledger := ledger,
           durable := RecordProgress(w.durable, c, w.now, at, false, all),
           unserved := w.unserved + AffectedLanes(c, all) - {Native})
      else
        w.(ledger := ledger,
           event := if w.event.Some? && w.event.value.advance.Some?
                    then Some(w.event.value.(advance := Some(w.event.value.advance.value.(silent := true))))
                    else w.event)
    case RecordOnly(id, at, lanes) =>
      var all := CommitLanes(w.mutations[id], lanes);
      w.(durable := RecordProgress(w.durable, c, w.now, at, w.mutations[id].origin.NativeSource?, all),
         unserved := w.unserved + AffectedLanes(c, all) - {Native})
    case ReleaseCommitted(id) =>
      w.(mutations := w.mutations[id := w.mutations[id].(held := w.mutations[id].held * {Native, Publication})])
    case EndMutating(id) => w.(mutations := w.mutations - {id})
    case ScheduleLane(at, lane, cursor) =>
      w.(durable := Schedule(w.durable, c, w.now, at, lane, cursor),
         unserved := if cursor.Some? && AcceptsCursor(w.durable.rows, lane, cursor.value) then w.unserved + {lane} - {Native} else w.unserved)
    case Wake => w.(durable := ArmNow(w.durable, w.now))
    case StartAdvance(renewed, registry, dispatch) =>
      var e := w.event.value;
      var reserved := Threads(e.attempts);
      var begun := BeginPass(w.durable, c, w.now, registry, e.charged);
      var started := if renewed then begun.1 else e.first.value.0;
      var active := if renewed then |w.mutations| else e.first.value.1;
      var advance := Advance(Began, started, active, dispatch, reserved, map[], {}, 0, map[], false, 0, false, false, false);
      if !renewed then
        WithEvent(w, e.(advance := Some(advance), recheck := e.recheck && !(e.attempts == multiset{} && e.pending == {})))
      else
        WithEvent(w.(durable := begun.0), e.(
          engaged := e.engaged || started.actionable,
          generation := Some(started.generation),
          charged := if started.actionable then Some(started.revision) else e.charged,
          first := if e.first.None? then Some((started, active)) else e.first,
          advance := Some(advance)))
    case ScanHeads =>
      var e := w.event.value;
      var a := e.advance.value;
      WithEvent(w, e.(
        observation := if e.observation.Some? then e.observation else Some(Overlap(a.started.generation, a.activeAtStart)),
        advance := Some(a.(phase := Scanned, seen := w.ledger, parked := w.durable.record.bindingWaits))))
    case LearnFault(t) => WithEvent(w, w.event.value.(faults := w.event.value.faults + {t}))
    case Select(stopping, dueFaults) =>
      var e := w.event.value;
      var a := e.advance.value;
      var selected := Selected(w.durable, e, a, stopping);
      var attempts := e.attempts + multiset(selected);
      var served := if selected == [] then w.durable else
        w.durable.(record := w.durable.record.(lastServed := Some(selected[|selected| - 1])));
      WithEvent(w.(durable := served), e.(
        attempts := attempts,
        recoveryStarted := true,
        recheck := e.recheck || selected != [] || (!e.recoveryStarted && Backlog(e, a, stopping, dueFaults) != {}),
        pending := if e.recoveryStarted then e.pending else Backlog(e, a, stopping, dueFaults),
        advance := if attempts == multiset{} then Some(a.(phase := Chosen)) else None))
    case ReadGeneration =>
      WithAdvance(w, w.event.value.advance.value.(phase := Numbered, scanned := w.durable.record.dirty))
    case ScanRemaining =>
      WithAdvance(w, w.event.value.advance.value.(
        phase := Remaining, rows := w.ledger, paged := RowCount(w.ledger) >= SCAN_PAGE_SIZE, scannedAt := w.durable.record.dirty, silent := false, raced := false))
    case ReadPage(from) =>
      var a := w.event.value.advance.value;
      WithAdvance(w, a.(rows := map t | t in a.rows.Keys + w.ledger.Keys :: if t >= from then Queue(w.ledger, t) else Queue(a.rows, t)))
    case Classify =>
      var e := w.event.value;
      var a := e.advance.value;
      WithAdvance(w, a.(phase := Classified, autonomous := !Quiet(a.rows, Knows(e, a.parked))))
    case CheckpointScan(progressed, delay) =>
      var e := w.event.value;
      var a := e.advance.value;
      var scan := ScanOf(w, e, a, progressed);
      var before := w.durable.record;
      var acknowledges := Acknowledged(before, scan) != before.processed;
      var e' := e.(advance := None, deferred := {},
                   observation := if scan.empty && e.pending == {} then None else e.observation);
      WithEvent(w.(
        durable := Checkpoint(w.durable, c, w.now, scan, delay),
        certified := if acknowledges then Knowledge({}, {}, a.parked, e.reports) else w.certified,
        hazard := if acknowledges then a.raced || (a.silent && Certified(before, scan) != scan.observed) else w.hazard), e')
    case AbandonAdvance => WithEvent(w, w.event.value.(advance := None, recoveryStarted := true))
    case AttemptWrites(t, rows) => w.(ledger := w.ledger[t := rows])
    case AttemptReports(t, reports, faulted) => WithEvent(w, Recovered(w.event.value, t, reports, faulted))
    case AttemptWaits(key) =>
      // The clearing branch needs an earlier wait of a selected head, which selection excludes.
      w.(durable := w.durable.(record := w.durable.record.(bindingWaits := w.durable.record.bindingWaits + {key})))
    case AttemptEnds(t, settled) =>
      var e := w.event.value;
      WithEvent(w, e.(attempts := e.attempts - multiset{t}, deferred := if settled then e.deferred else e.deferred + {t}))
    case RecoveryWrites(t, rows) => w.(ledger := w.ledger[t := rows])
    case RecoveryEnds(t, reports, faulted) =>
      var e := Recovered(w.event.value, t, reports, faulted);
      var races := e.advance.Some? && e.advance.value.phase == Remaining && Queue(e.advance.value.rows, t) != [];
      WithEvent(w, e.(
        pending := e.pending - {t},
        advance := if races then Some(e.advance.value.(raced := true)) else e.advance))
    case ClaimLane(lane, revision) =>
      var e := w.event.value;
      var claims := Claimable(w.durable.rows, lane, revision, w.now, false);
      WithEvent(w.(durable := ClaimWave(w.durable, c, w.now, lane, revision),
                   unserved := if claims then w.unserved - {lane} else w.unserved),
                e.(waves := if claims then e.waves + {Wave(lane, revision)} else e.waves))
    case AcknowledgeLane(wave, next) =>
      var e := w.event.value;
      WithEvent(w.(durable := CompleteWave(w.durable, wave.lane, wave.revision, Producing(w, wave.lane), next)),
                e.(waves := e.waves - {wave}))
    case DropWave(wave) =>
      WithEvent(w, w.event.value.(waves := w.event.value.waves - {wave}))
    case FinishPass(nextAttemptAt) =>
      WithEvent(w.(durable := FinishEvent(w.durable, c, w.now, |w.mutations|, w.event.value.generation, nextAttemptAt)),
                w.event.value.(finished := true))
    case ReturnFromHandler => w.(event := None, delivering := false)
    case FailPass(rearm, jitter, observation) =>
      var kept := WithoutNative(w.mutations);
      w.(durable := if rearm then RearmFailure(w.durable, c, w.now, jitter, observation, |kept|) else w.durable,
         mutations := kept,
         event := None)
  }

  /** A newly created Object: every framework lane registered, nothing acknowledged or armed. */
  ghost predicate Initial(w: World) {
    && !w.up && !w.delivering && !w.hazard && w.event.None? && w.mutations == map[] && w.unserved == {}
    && w.durable == Durable(InitialRows(), INITIAL_RECORD, false, None)
    && WellFormed(w.ledger)
  }

  function InitialRows(): Table {
    Register(Register(Register(Register(map[], Native), Publication), Projection), Messages)
  }

  ghost predicate Executable(c: Config, w: World, steps: seq<Step>)
    decreases steps
  {
    steps == [] || (Enabled(w, steps[0]) && Executable(c, Apply(c, w, steps[0]), steps[1..]))
  }

  ghost function Execute(c: Config, w: World, steps: seq<Step>): World
    requires Executable(c, w, steps)
    decreases steps
  {
    if steps == [] then w else Execute(c, Apply(c, w, steps[0]), steps[1..])
  }
}
