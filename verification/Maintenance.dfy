/**
 * The storage transactions of the maintenance owner
 * (packages/platform-cloudflare/src/Alarm.ts). Each is a function of the durable state: the
 * lane table, the dirty/processed record and the single alarm slot. `MaintenanceStore` is the
 * imperative form, with the same transactions as methods.
 */
module Maintenance {
  import opened Common
  import opened DueQueue

  /** Thread ids are compared and sorted, never inspected: only their order is modelled. */
  type ThreadId = nat
  type SubmissionId = nat
  datatype Key = Key(thread: ThreadId, submission: SubmissionId)

  datatype Retry = Retry(generation: nat, notBefore: int, nativeOnly: bool, stalls: nat)

  datatype Record = Record(
    dirty: nat,
    processed: nat,
    lastServed: Option<ThreadId>,
    bindingWaits: set<Key>,
    registryKey: Option<nat>,
    retry: Option<Retry>)

  datatype Durable = Durable(rows: Table, record: Record, initialized: bool, alarm: Option<int>)

  datatype Config = Config(backoffBase: nat, backoffCap: nat, publicationRequired: bool)

  const INITIAL_RECORD := Record(1, 0, None, {}, None, None)

  function MinimumDelay(c: Config): (d: int)
    ensures d >= 1
  {
    Max(1, CeilDiv(c.backoffBase, 2))
  }

  function EnsureBy(alarm: Option<int>, deadline: int): Option<int> {
    if alarm.None? || alarm.value > deadline then Some(deadline) else alarm
  }

  /** Producers: the slot moves to the earliest deadline, but never later. */
  ghost function EnsureNext(d: Durable, floor: int): Durable {
    match Next(d.rows)
    case None => d
    case Some(next) => d.(alarm := EnsureBy(d.alarm, Max(next, floor)))
  }

  /** Maintenance: the slot becomes the earliest deadline, or is cleared. */
  ghost function ResetAlarm(d: Durable, floor: int): Durable {
    match Next(d.rows)
    case None => d.(alarm := None)
    case Some(next) => d.(alarm := Some(Max(floor, next)))
  }

  function DirtyLanes(t: Table, lanes: set<LaneId>, at: int, progress: bool): Table {
    t + map id | id in lanes :: DirtyRow(Find(t, id), at, progress, None)
  }

  function PrearmedLanes(c: Config, invalidates: bool, lanes: set<LaneId>): set<LaneId> {
    lanes + if !invalidates then {} else if c.publicationRequired then {Native, Publication} else {Native}
  }

  function Prearmed(d: Durable, c: Config, now: int, invalidates: bool, nativeSource: bool, lanes: set<LaneId>): Durable {
    var prearmed := PrearmedLanes(c, invalidates, lanes);
    if prearmed == {} then d
    else d.(rows := DirtyLanes(d.rows, prearmed, now, false),
            record := d.record.(dirty := d.record.dirty + if invalidates && !nativeSource then 1 else 0),
            initialized := true)
  }

  /** The prearming transaction, before a mutation's body runs; one that enrols nothing is skipped. */
  ghost function BeginMutation(d: Durable, c: Config, now: int, invalidates: bool, nativeSource: bool, lanes: set<LaneId>): Durable {
    if PrearmedLanes(c, invalidates, lanes) == {} then d
    else EnsureNext(Prearmed(d, c, now, invalidates, nativeSource, lanes), now + MinimumDelay(c))
  }

  function AffectedLanes(c: Config, lanes: set<LaneId>): set<LaneId> {
    var required := if c.publicationRequired then lanes else lanes - {Publication};
    if Publication in required then required + {Native} else required
  }

  /** The scheduling half of a source transaction that commits a new fact. */
  function RecordProgress(d: Durable, c: Config, now: int, at: int, nativeSource: bool, lanes: set<LaneId>): Durable {
    var affected := AffectedLanes(c, lanes);
    if affected == {} then d
    else
      d.(rows := DirtyLanes(d.rows, affected, at, true),
         record := if Native in affected
                   then d.record.(retry := None, dirty := d.record.dirty + if nativeSource then 0 else 1)
                   else d.record,
         initialized := d.initialized || Native in affected,
         alarm := EnsureBy(d.alarm, now + MinimumDelay(c)))
  }

  function Enrolled(d: Durable, at: int, id: LaneId, cursor: Option<nat>): Durable {
    match cursor
    case None => d.(rows := Dirty(d.rows, id, at, false))
    case Some(k) =>
      if !AcceptsCursor(d.rows, id, k) then d
      else
        var rows := Progress(d.rows, id, at, k);
        if id != Native && id != Publication then d.(rows := rows)
        else d.(rows := if id == Publication then Dirty(rows, Native, at, true) else rows,
                record := d.record.(retry := None, dirty := d.record.dirty + 1),
                initialized := true)
  }

  /** Enrolment of a known lane, with or without a source cursor. */
  ghost function Schedule(d: Durable, c: Config, now: int, at: int, id: LaneId, cursor: Option<nat>): Durable {
    EnsureNext(Enrolled(d, at, id, cursor), now + MinimumDelay(c))
  }

  /** Reading the record under a changed binding registry opens one native opportunity. */
  function ReadCurrent(d: Durable, key: nat): Durable {
    if d.record.registryKey == Some(key) then d
    else d.(rows := Dirty(d.rows, Native, 0, true),
            record := d.record.(registryKey := Some(key), bindingWaits := {}, retry := None, dirty := d.record.dirty + 1),
            initialized := true)
  }

  /** Retained recovery notices enrol their lane, if an older release left it without a row. */
  function Noticed(d: Durable, now: int, notices: bool): Durable {
    if notices && RecoveryEvents !in d.rows then d.(rows := Dirty(d.rows, RecoveryEvents, now, false)) else d
  }

  predicate Behind(r: Record) {
    r.dirty > r.processed
  }

  function ConstructedNative(d: Durable, c: Config, now: int): Option<int> {
    if !Behind(d.record) then None
    else if d.record.retry.Some? && d.record.retry.value.generation == d.record.dirty
    then Some(d.record.retry.value.notBefore)
    else if IsDue(d.rows, Native) then d.rows[Native].dueAt
    else Some(now + MinimumDelay(c))
  }

  /** The constructor's defensive half of the alarm invariant. */
  ghost function EnsureAlarm(d: Durable, c: Config, now: int, key: nat, notices: bool): Durable {
    var read := Noticed(ReadCurrent(d, key), now, notices);
    EnsureNext(read.(rows := CheckpointNative(read.rows, ConstructedNative(read, c, now)), initialized := true),
               now + MinimumDelay(c))
  }

  datatype Started = Started(generation: nat, revision: nat, stalls: nat, actionable: bool)

  predicate NativeActionable(d: Durable, now: int) {
    && Behind(d.record)
    && (d.record.retry.Some? && d.record.retry.value.generation == d.record.dirty ==> d.record.retry.value.notBefore <= now)
    && IsDue(d.rows, Native)
    && d.rows[Native].notBefore <= now
    && !IsParked(d.rows, Publication)
  }

  /** Opening a native step charges the native lane once per progress revision. */
  ghost function BeginPass(d: Durable, c: Config, now: int, key: nat, charged: Option<nat>): (Durable, Started) {
    var read := ReadCurrent(d, key).(initialized := true);
    if !NativeActionable(read, now) then (read, Started(read.record.dirty, 0, 0, false))
    else
      var native := read.rows[Native];
      var rows := if charged == Some(native.revision) then read.rows
                  else Claim(read.rows, Native, native.revision, now, true);
      (ResetAlarm(read.(rows := rows), now + MinimumDelay(c)),
       Started(read.record.dirty, native.revision, rows[Native].stalls, true))
  }

  /** Charging a lane's wave before its work. */
  ghost function ClaimWave(d: Durable, c: Config, now: int, id: LaneId, revision: nat): Durable {
    ResetAlarm(d.(rows := Claim(d.rows, id, revision, now, false)), now + MinimumDelay(c))
  }

  /** Acknowledging a wave; a producer still active on the lane suppresses it. */
  function CompleteWave(d: Durable, id: LaneId, revision: nat, producing: bool, next: Option<int>): Durable {
    if producing then d else d.(rows := Complete(d.rows, id, revision, next))
  }

  datatype Scan = Scan(
    autonomous: bool,
    empty: bool,
    observed: nat,       // the generation this recovery wave observed first
    started: nat,        // the generation this step began with
    scanned: nat,        // the generation read just before the final scan
    overlap: bool,       // a producer overlapped an observation or is active now
    progressed: bool,
    stalls: nat,
    remaining: set<Key>)

  /** The generation a native checkpoint may certify. */
  function Certified(r: Record, s: Scan): nat {
    if s.empty && !s.overlap && r.dirty == s.scanned then s.scanned else s.observed
  }

  function Acknowledged(r: Record, s: Scan): nat {
    if s.autonomous || s.overlap || r.processed > Certified(r, s) then r.processed else Certified(r, s)
  }

  function Checkpoint(d: Durable, c: Config, now: int, s: Scan, delay: int): Durable {
    var canBackoff := !s.overlap && d.record.dirty == s.started;
    var record := d.record.(
      processed := Acknowledged(d.record, s),
      bindingWaits := d.record.bindingWaits * s.remaining,
      retry := if s.autonomous && !s.progressed && canBackoff
               then Some(Retry(s.started, now + delay, true, Min(30, s.stalls + 1)))
               else None);
    var dueAt :=
      if s.autonomous then Some(now + if canBackoff then delay else MinimumDelay(c))
      else if s.overlap || Behind(record) then Some(now + MinimumDelay(c))
      else None;
    d.(record := record, rows := CheckpointNative(d.rows, dueAt))
  }

  function BackoffCeiling(c: Config, stalls: nat): nat {
    Min(c.backoffCap, c.backoffBase * Pow2(Min(stalls, 30)))
  }

  /** Jitter in [0, 1) spreads a retry over the upper half of its ceiling. */
  function BackoffDelay(c: Config, stalls: nat, jitter: real): int {
    var b := BackoffCeiling(c, stalls) as real;
    Ceil(b / 2.0 + b / 2.0 * jitter)
  }

  lemma BackoffStaysInTheUpperHalf(c: Config, stalls: nat, jitter: real)
    requires 0.0 <= jitter < 1.0
    ensures CeilDiv(BackoffCeiling(c, stalls), 2) <= BackoffDelay(c, stalls, jitter) <= BackoffCeiling(c, stalls)
  {
    UpperHalf(BackoffCeiling(c, stalls), jitter);
  }

  lemma Fraction(x: real, y: real)
    requires 0.0 <= x && 0.0 <= y <= 1.0
    ensures 0.0 <= x * y <= x
  {
    assert x * y <= x * 1.0;
  }

  lemma UpperHalf(b: nat, jitter: real)
    requires 0.0 <= jitter < 1.0
    ensures CeilDiv(b, 2) <= Ceil(b as real / 2.0 + b as real / 2.0 * jitter) <= b
  {
    var half := b as real / 2.0;
    Fraction(half, jitter);
    var delay := Ceil(half + half * jitter);
    assert delay as real >= half;
    assert 2 * delay >= b;
    assert half + half * jitter <= b as real;
  }

  /** The failed event's treatment of one lane it had observed. */
  function RearmRow(c: Config, now: int, jitter: real, id: LaneId, current: DueLane, observed: DueLane, charged: bool): DueLane {
    if id == Native || observed.dueAt.None? || observed.dueAt.value > now || current.revision != observed.revision then current
    else if charged then
      RestRow(current, Some(now + BackoffDelay(c, observed.stalls, jitter))).(revision := current.revision + 1)
    else if current.dueAt.Some? && current.dueAt.value <= now then
      var claimed := ClaimRow(current, now);
      RestRow(claimed, Some(now + BackoffDelay(c, claimed.stalls, jitter))).(revision := current.revision + 1)
    else current
  }

  datatype Observation = Observation(
    generation: nat,
    nativeOnly: bool,
    queue: map<LaneId, DueLane>,
    charged: map<LaneId, nat>)

  predicate ChargedIn(o: Observation, id: LaneId) {
    id in o.queue && id in o.charged && o.charged[id] == o.queue[id].revision
  }

  function RearmRows(t: Table, c: Config, now: int, jitter: real, o: Observation): Table {
    map id | id in t :: if id in o.queue then RearmRow(c, now, jitter, id, t[id], o.queue[id], ChargedIn(o, id)) else t[id]
  }

  function FailureRetry(r: Record, c: Config, now: int, jitter: real, o: Observation): Retry {
    var same := r.retry.Some? && r.retry.value.generation == o.generation;
    if same && r.retry.value.nativeOnly then r.retry.value
    else if same && r.retry.value.nativeOnly == o.nativeOnly then
      var previous := r.retry.value;
      Retry(o.generation, Max(previous.notBefore, now + BackoffDelay(c, previous.stalls, jitter)), o.nativeOnly, Min(30, previous.stalls + 1))
    else Retry(o.generation, Max(0, now + BackoffDelay(c, 0, jitter)), o.nativeOnly, 1)
  }

  function RearmNative(r: Record, c: Config, now: int, o: Observation, active: nat, retry: Retry): Option<int> {
    if !Behind(r) && active == 0 then None
    else Some(if active > 0 || r.dirty != o.generation then now + MinimumDelay(c) else retry.notBefore)
  }

  /** Backing off a failed event: only what it observed, and never a racing producer. */
  ghost function RearmFailure(d: Durable, c: Config, now: int, jitter: real, o: Observation, active: nat): Durable {
    var retry := FailureRetry(d.record, c, now, jitter, o);
    var native := RearmNative(d.record, c, now, o, active, retry);
    ResetAlarm(d.(record := d.record.(retry := Some(retry)),
                  rows := RearmRows(CheckpointNative(d.rows, native), c, now, jitter, o)), now + MinimumDelay(c))
  }

  function FinishNative(r: Record, c: Config, now: int, active: nat, observed: Option<nat>, nextAttemptAt: Option<int>): Option<int> {
    if active == 0 && !Behind(r) then None
    else if r.retry.Some? && r.retry.value.generation == r.dirty && active == 0
    then Some(Max(now + MinimumDelay(c), r.retry.value.notBefore))
    else if observed == Some(r.dirty) && active == 0 then Some(nextAttemptAt.GetOr(now + MinimumDelay(c)))
    else Some(now + MinimumDelay(c))
  }

  /** The last transaction of a successful event decides the physical alarm. */
  ghost function FinishEvent(d: Durable, c: Config, now: int, active: nat, observed: Option<nat>, nextAttemptAt: Option<int>): Durable {
    var native := FinishNative(d.record, c, now, active, observed, nextAttemptAt);
    ResetAlarm(d.(rows := CheckpointNative(d.rows, native)), now + MinimumDelay(c))
  }

  /** The droppable wake hint. */
  ghost function ArmNow(d: Durable, now: int): Durable {
    EnsureNext(d, now)
  }

  // ---------------------------------------------------------------- the alarm invariant

  ghost predicate ValidDurable(d: Durable) {
    && ValidTable(d.rows)
    && Native in d.rows && Publication in d.rows
    && d.record.processed <= d.record.dirty
    && (d.record.retry.Some? ==> 0 <= d.record.retry.value.notBefore)
  }

  /** Work the Object owes: a lane with a deadline, or a generation it has not certified. */
  ghost predicate Owes(d: Durable) {
    Behind(d.record) || exists id :: IsDue(d.rows, id)
  }

  /** The slot fires no later than every lane's deadline, up to the minimum delay. */
  ghost predicate SlotCovers(alarm: Option<int>, t: Table, floor: int) {
    forall id :: IsDue(t, id) ==> alarm.Some? && alarm.value <= Max(t[id].dueAt.value, floor)
  }

  /** An uncertified generation always has a lane that will bring it back. */
  ghost predicate NativeCovered(r: Record, t: Table) {
    Behind(r) ==> IsDue(t, Native) || IsParked(t, Publication)
  }

  /** What holds between deliveries. */
  ghost predicate Armed(d: Durable, c: Config, now: int) {
    && ValidDurable(d)
    && SlotCovers(d.alarm, d.rows, now + MinimumDelay(c))
    && NativeCovered(d.record, d.rows)
  }

  lemma ArmedMeansAnAlarmForEveryObligation(d: Durable, c: Config, now: int)
    requires Armed(d, c, now) && Owes(d)
    ensures d.alarm.Some?
    ensures Next(d.rows).Some? && d.alarm.value <= Max(Next(d.rows).value, now + MinimumDelay(c))
  {
    if IsParked(d.rows, Publication) {
      assert ValidRow(Publication, d.rows[Publication]);
      assert IsDue(d.rows, Publication);
    }
    NextIsEarliest(d.rows);
  }

  lemma EnsureNextCovers(d: Durable, floor: int)
    ensures var e := EnsureNext(d, floor); e == d.(alarm := e.alarm) && SlotCovers(e.alarm, e.rows, floor)
    ensures d.alarm.Some? ==> EnsureNext(d, floor).alarm.Some? && EnsureNext(d, floor).alarm.value <= d.alarm.value
  {
    NextIsEarliest(d.rows);
  }

  lemma ResetAlarmCovers(d: Durable, floor: int)
    ensures var e := ResetAlarm(d, floor); e == d.(alarm := e.alarm) && SlotCovers(e.alarm, e.rows, floor)
  {
    NextIsEarliest(d.rows);
  }

  lemma DirtyLanesValid(t: Table, lanes: set<LaneId>, at: int, progress: bool)
    requires ValidTable(t) && 0 <= at
    ensures var u := DirtyLanes(t, lanes, at, progress);
            && ValidTable(u)
            && u.Keys == t.Keys + lanes
            && (forall id :: id in lanes ==> IsDue(u, id))
            && (forall id :: id in t && id !in lanes ==> u[id] == t[id])
            && (!progress ==> IsParked(t, Publication) ==> IsParked(u, Publication))
  {
    var u := DirtyLanes(t, lanes, at, progress);
    forall id | id in u ensures ValidRow(id, u[id]) {
      if id in t { assert ValidRow(id, t[id]); }
    }
    if IsParked(t, Publication) { assert ValidRow(Publication, t[Publication]); }
  }

  lemma PrearmedValid(d: Durable, c: Config, now: int, invalidates: bool, nativeSource: bool, lanes: set<LaneId>)
    requires ValidDurable(d) && 0 <= now
    ensures var e := Prearmed(d, c, now, invalidates, nativeSource, lanes);
            ValidDurable(e) && (NativeCovered(d.record, d.rows) ==> NativeCovered(e.record, e.rows))
  {
    DirtyLanesValid(d.rows, PrearmedLanes(c, invalidates, lanes), now, false);
  }

  /** Every producer transaction keeps an armed Object armed. */
  lemma BeginMutationKeepsArmed(d: Durable, c: Config, now: int, invalidates: bool, nativeSource: bool, lanes: set<LaneId>)
    requires Armed(d, c, now) && 0 <= now
    ensures Armed(BeginMutation(d, c, now, invalidates, nativeSource, lanes), c, now)
  {
    PrearmedValid(d, c, now, invalidates, nativeSource, lanes);
    EnsureNextCovers(Prearmed(d, c, now, invalidates, nativeSource, lanes), now + MinimumDelay(c));
  }

  lemma RecordProgressKeepsArmed(d: Durable, c: Config, now: int, at: int, nativeSource: bool, lanes: set<LaneId>)
    requires Armed(d, c, now) && 0 <= at <= now
    ensures Armed(RecordProgress(d, c, now, at, nativeSource, lanes), c, now)
  {
    var affected := AffectedLanes(c, lanes);
    if affected != {} {
      DirtyLanesValid(d.rows, affected, at, true);
      var e := RecordProgress(d, c, now, at, nativeSource, lanes);
      forall id | IsDue(e.rows, id) ensures e.alarm.value <= Max(e.rows[id].dueAt.value, now + MinimumDelay(c)) {
        if id !in affected { assert IsDue(d.rows, id); }
      }
      if IsParked(d.rows, Publication) && Publication !in affected { assert e.rows[Publication] == d.rows[Publication]; }
    }
  }

  lemma EnrolledValid(d: Durable, at: int, id: LaneId, cursor: Option<nat>)
    requires ValidDurable(d) && NativeCovered(d.record, d.rows) && 0 <= at
    ensures var e := Enrolled(d, at, id, cursor); ValidDurable(e) && NativeCovered(e.record, e.rows)
  {
    EnrolmentKeepsValid(d.rows, id, at, cursor.Some?, cursor);
    if id == Publication && cursor.Some? {
      EnrolmentKeepsValid(Progress(d.rows, id, at, cursor.value), Native, at, true, None);
    }
  }

  lemma ScheduleKeepsArmed(d: Durable, c: Config, now: int, at: int, id: LaneId, cursor: Option<nat>)
    requires Armed(d, c, now) && 0 <= now && 0 <= at
    ensures Armed(Schedule(d, c, now, at, id, cursor), c, now)
  {
    EnrolledValid(d, at, id, cursor);
    EnsureNextCovers(Enrolled(d, at, id, cursor), now + MinimumDelay(c));
  }

  lemma CheckpointNativeValid(d: Durable, dueAt: Option<int>)
    requires ValidDurable(d) && (dueAt.Some? ==> 0 <= dueAt.value) && (Behind(d.record) ==> dueAt.Some?)
    ensures ValidDurable(d.(rows := CheckpointNative(d.rows, dueAt)))
    ensures NativeCovered(d.record, CheckpointNative(d.rows, dueAt))
  {
    CompletionKeepsValid(d.rows, Native, 0, dueAt);
  }

  lemma ReadCurrentValid(d: Durable, key: nat)
    requires ValidDurable(d)
    ensures ValidDurable(ReadCurrent(d, key))
  {
    EnrolmentKeepsValid(d.rows, Native, 0, true, None);
  }

  lemma NoticedValid(d: Durable, now: int, notices: bool)
    requires ValidDurable(d) && 0 <= now
    ensures ValidDurable(Noticed(d, now, notices))
  {
    EnrolmentKeepsValid(d.rows, RecoveryEvents, now, false, None);
  }

  /** However the Object was left, the constructor and both ends of an event arm it again. */
  lemma EnsureAlarmArms(d: Durable, c: Config, now: int, key: nat, notices: bool)
    requires ValidDurable(d) && 0 <= now
    ensures Armed(EnsureAlarm(d, c, now, key, notices), c, now)
  {
    ReadCurrentValid(d, key);
    NoticedValid(ReadCurrent(d, key), now, notices);
    var read := Noticed(ReadCurrent(d, key), now, notices);
    var native := ConstructedNative(read, c, now);
    if IsDue(read.rows, Native) { assert ValidRow(Native, read.rows[Native]); }
    CheckpointNativeValid(read, native);
    EnsureNextCovers(read.(rows := CheckpointNative(read.rows, native), initialized := true), now + MinimumDelay(c));
  }

  lemma FinishEventArms(d: Durable, c: Config, now: int, active: nat, observed: Option<nat>, nextAttemptAt: Option<int>)
    requires ValidDurable(d) && 0 <= now && (nextAttemptAt.Some? ==> 0 <= nextAttemptAt.value)
    ensures Armed(FinishEvent(d, c, now, active, observed, nextAttemptAt), c, now)
  {
    var native := FinishNative(d.record, c, now, active, observed, nextAttemptAt);
    CheckpointNativeValid(d, native);
    ResetAlarmCovers(d.(rows := CheckpointNative(d.rows, native)), now + MinimumDelay(c));
  }

  lemma RearmFailureArms(d: Durable, c: Config, now: int, jitter: real, o: Observation, active: nat)
    requires ValidDurable(d) && 0 <= now && 0.0 <= jitter < 1.0
    ensures Armed(RearmFailure(d, c, now, jitter, o, active), c, now)
  {
    var retry := FailureRetry(d.record, c, now, jitter, o);
    var native := RearmNative(d.record, c, now, o, active, retry);
    assert 0 <= retry.notBefore;
    CheckpointNativeValid(d, native);
    var t := CheckpointNative(d.rows, native);
    RearmRowsValid(t, c, now, jitter, o);
    ResetAlarmCovers(d.(record := d.record.(retry := Some(retry)), rows := RearmRows(t, c, now, jitter, o)), now + MinimumDelay(c));
  }

  lemma RearmRowsValid(t: Table, c: Config, now: int, jitter: real, o: Observation)
    requires ValidTable(t) && 0 <= now && 0.0 <= jitter < 1.0
    ensures var u := RearmRows(t, c, now, jitter, o);
            && u.Keys == t.Keys && ValidTable(u)
            && (forall id :: IsDue(t, id) ==> IsDue(u, id))
            && (Native in t ==> u[Native] == t[Native])
            && (IsParked(t, Publication) ==> IsParked(u, Publication))
  {
    var u := RearmRows(t, c, now, jitter, o);
    forall id | id in t
      ensures ValidRow(id, u[id]) && (t[id].dueAt.Some? ==> u[id].dueAt.Some?) && (t[id].state.Parked? ==> u[id].state.Parked?)
    {
      assert ValidRow(id, t[id]);
    }
  }

  /** Producers only ever move the slot earlier: prearming, hints and notices, source facts. */
  lemma PrearmingOnlyMovesTheAlarmEarlier(d: Durable, c: Config, now: int, invalidates: bool, nativeSource: bool, lanes: set<LaneId>)
    ensures NotLater(BeginMutation(d, c, now, invalidates, nativeSource, lanes).alarm, d.alarm)
  {
    EnsureNextCovers(Prearmed(d, c, now, invalidates, nativeSource, lanes), now + MinimumDelay(c));
  }

  lemma ProducersOnlyMoveTheAlarmEarlier(d: Durable, c: Config, now: int, at: int, nativeSource: bool, lanes: set<LaneId>, id: LaneId, cursor: Option<nat>)
    ensures NotLater(RecordProgress(d, c, now, at, nativeSource, lanes).alarm, d.alarm)
    ensures NotLater(Schedule(d, c, now, at, id, cursor).alarm, d.alarm)
    ensures NotLater(ArmNow(d, now).alarm, d.alarm)
  {
    var e := Enrolled(d, at, id, cursor);
    assert e.alarm == d.alarm;
    EnsureNextCovers(e, now + MinimumDelay(c));
    EnsureNextCovers(d, now);
  }

  ghost predicate NotLater(after: Option<int>, before: Option<int>) {
    before.Some? ==> after.Some? && after.value <= before.value
  }

  // ------------------------------------------------- what a failed event may postpone

  /**
   * A failed event backs off the revisions it observed and nothing else: a lane whose revision
   * moved on, that it never observed, or that was not yet due keeps its row.
   */
  lemma FailureBacksOffOnlyWhatItObserved(d: Durable, c: Config, now: int, jitter: real, o: Observation, active: nat, id: LaneId)
    requires id in d.rows && id != Native
    requires id !in o.queue || o.queue[id].revision != d.rows[id].revision || o.queue[id].dueAt.None? || o.queue[id].dueAt.value > now
    ensures var after := RearmFailure(d, c, now, jitter, o, active); id in after.rows && after.rows[id] == d.rows[id]
  {
  }

  /** A lane it did observe and claim stays due, inside its jittered backoff or retry floor. */
  lemma FailureKeepsObservedLaneDue(d: Durable, c: Config, now: int, jitter: real, o: Observation, active: nat, id: LaneId)
    requires ValidDurable(d) && 0 <= now && 0.0 <= jitter < 1.0
    requires id != Native && ChargedIn(o, id) && id in d.rows && o.queue[id].revision == d.rows[id].revision
    requires o.queue[id].dueAt.Some? && o.queue[id].dueAt.value <= now
    ensures var after := RearmFailure(d, c, now, jitter, o, active);
            && IsDue(after.rows, id) && after.rows[id].revision == d.rows[id].revision + 1
            && after.rows[id].dueAt.value == Max(now + BackoffDelay(c, o.queue[id].stalls, jitter), d.rows[id].notBefore)
  {
  }

  /**
   * A generation newer than the failed observation. The native lane is retried at the minimum
   * delay exactly when no earlier charge put a later floor on it and required publication is not
   * parked; recording the new fact removes such a floor, prearming alone does not.
   */
  lemma NewerGenerationIsRetriedWithinTheMinimumDelayExactlyWhen(d: Durable, c: Config, now: int, jitter: real, o: Observation, active: nat)
    requires ValidDurable(d) && Behind(d.record) && (active > 0 || d.record.dirty != o.generation)
    ensures var after := RearmFailure(d, c, now, jitter, o, active).rows;
            && Native in after
            && ((after[Native].dueAt.Some? && after[Native].dueAt.value <= now + MinimumDelay(c))
                <==> d.rows[Native].notBefore <= now + MinimumDelay(c) && !IsParked(d.rows, Publication))
  {
  }

  lemma RecordedProgressRemovesTheFloor(d: Durable, c: Config, now: int, at: int, nativeSource: bool, lanes: set<LaneId>)
    requires Native in AffectedLanes(c, lanes)
    ensures var after := RecordProgress(d, c, now, at, nativeSource, lanes);
            && Native in after.rows && after.rows[Native].notBefore == 0 && after.rows[Native].dueAt == Some(at)
            && after.record.retry == None && (!nativeSource ==> after.record.dirty == d.record.dirty + 1)
  {
  }

  // ------------------------------------------------------------------ the imperative form

  /** The maintenance owner's storage; one method per transaction. */
  class MaintenanceStore {
    const config: Config
    var rows: Table
    var record: Record
    var initialized: bool
    var alarm: Option<int>

    constructor (config: Config)
      ensures this.config == config && State() == Durable(map[], INITIAL_RECORD, false, None)
    {
      this.config := config;
      rows, record, initialized, alarm := map[], INITIAL_RECORD, false, None;
    }

    ghost function State(): Durable
      reads this
    {
      Durable(rows, record, initialized, alarm)
    }

    method NextDeadline() returns (next: Option<int>)
      ensures next == Next(rows)
    {
      next := None;
      var todo := rows.Keys;
      while todo != {}
        invariant todo <= rows.Keys
        invariant next.None? ==> forall id :: IsDue(rows, id) ==> id in todo
        invariant next.Some? ==> exists id :: IsDue(rows, id) && rows[id].dueAt == next
        invariant next.Some? ==> forall id :: IsDue(rows, id) && id !in todo ==> next.value <= rows[id].dueAt.value
        decreases |todo|
      {
        var id :| id in todo;
        if rows[id].dueAt.Some? && (next.None? || rows[id].dueAt.value < next.value) {
          next := rows[id].dueAt;
          assert IsDue(rows, id);
        }
        todo := todo - {id};
      }
      NextIsEarliest(rows);
      if next.Some? {
        EarliestIsNext(rows, next.value);
      }
    }

    method DirtyEach(lanes: set<LaneId>, at: int, progress: bool)
      modifies this`rows
      ensures rows == DirtyLanes(old(rows), lanes, at, progress)
    {
      var todo := lanes;
      while todo != {}
        invariant todo <= lanes
        invariant rows == DirtyLanes(old(rows), lanes - todo, at, progress)
        decreases |todo|
      {
        var id :| id in todo;
        rows := Dirty(rows, id, at, progress);
        todo := todo - {id};
      }
      assert lanes - todo == lanes;
    }

    method EnsureSlot(floor: int)
      modifies this`alarm
      ensures State() == EnsureNext(old(State()), floor)
    {
      var next := NextDeadline();
      if next.Some? && (alarm.None? || alarm.value > Max(next.value, floor)) {
        alarm := Some(Max(next.value, floor));
      }
    }

    method ResetSlot(floor: int)
      modifies this`alarm
      ensures State() == ResetAlarm(old(State()), floor)
    {
      var next := NextDeadline();
      if next.Some? {
        alarm := Some(Max(floor, next.value));
      } else {
        alarm := None;
      }
    }

    method Begin(now: int, invalidates: bool, nativeSource: bool, lanes: set<LaneId>)
      modifies this
      ensures State() == BeginMutation(old(State()), config, now, invalidates, nativeSource, lanes)
    {
      var prearmed := PrearmedLanes(config, invalidates, lanes);
      if prearmed == {} {
        return;
      }
      DirtyEach(prearmed, now, false);
      if invalidates && !nativeSource {
        record := record.(dirty := record.dirty + 1);
      }
      initialized := true;
      EnsureSlot(now + MinimumDelay(config));
    }

    method Progressed(now: int, at: int, nativeSource: bool, lanes: set<LaneId>)
      modifies this
      ensures State() == RecordProgress(old(State()), config, now, at, nativeSource, lanes)
    {
      var affected := AffectedLanes(config, lanes);
      if affected == {} {
        return;
      }
      DirtyEach(affected, at, true);
      if Native in affected {
        record := record.(retry := None);
        if !nativeSource {
          record := record.(dirty := record.dirty + 1);
        }
        initialized := true;
      }
      alarm := EnsureBy(alarm, now + MinimumDelay(config));
    }

    method Enrol(now: int, at: int, id: LaneId, cursor: Option<nat>)
      modifies this
      ensures State() == Schedule(old(State()), config, now, at, id, cursor)
    {
      if cursor.None? {
        rows := Dirty(rows, id, at, false);
      } else if AcceptsCursor(rows, id, cursor.value) {
        rows := Progress(rows, id, at, cursor.value);
        if id == Native || id == Publication {
          if id == Publication {
            rows := Dirty(rows, Native, at, true);
          }
          record := record.(retry := None, dirty := record.dirty + 1);
          initialized := true;
        }
      }
      EnsureSlot(now + MinimumDelay(config));
    }

    method Read(key: nat)
      modifies this
      ensures State() == ReadCurrent(old(State()), key)
    {
      if record.registryKey != Some(key) {
        rows := Dirty(rows, Native, 0, true);
        record := record.(registryKey := Some(key), bindingWaits := {}, retry := None, dirty := record.dirty + 1);
        initialized := true;
      }
    }

    method Construct(now: int, key: nat, notices: bool)
      modifies this
      ensures State() == EnsureAlarm(old(State()), config, now, key, notices)
    {
      Read(key);
      if notices && RecoveryEvents !in rows {
        rows := Dirty(rows, RecoveryEvents, now, false);
      }
      initialized := true;
      var native := None;
      if Behind(record) {
        native := Some(now + MinimumDelay(config));
        if record.retry.Some? && record.retry.value.generation == record.dirty {
          native := Some(record.retry.value.notBefore);
        } else if Native in rows && rows[Native].dueAt.Some? {
          native := rows[Native].dueAt;
        }
      }
      rows := CheckpointNative(rows, native);
      EnsureSlot(now + MinimumDelay(config));
    }

    method OpenNative(now: int, key: nat, charged: Option<nat>) returns (started: Started)
      modifies this
      ensures (State(), started) == BeginPass(old(State()), config, now, key, charged)
    {
      Read(key);
      initialized := true;
      if !NativeActionable(Durable(rows, record, initialized, alarm), now) {
        return Started(record.dirty, 0, 0, false);
      }
      var revision := rows[Native].revision;
      if charged != Some(revision) {
        rows := Claim(rows, Native, revision, now, true);
      }
      started := Started(record.dirty, revision, rows[Native].stalls, true);
      ResetSlot(now + MinimumDelay(config));
    }

    /** Every observed lane still at its observed revision is claimed, if needed, and backed off. */
    method RearmEach(now: int, jitter: real, o: Observation)
      modifies this`rows
      ensures rows == RearmRows(old(rows), config, now, jitter, o)
    {
      var todo := rows.Keys;
      ghost var start := rows;
      while todo != {}
        invariant todo <= rows.Keys == start.Keys
        invariant forall id :: id in todo ==> rows[id] == start[id]
        invariant forall id :: id in start && id !in todo ==> rows[id] == RearmRows(start, config, now, jitter, o)[id]
        decreases |todo|
      {
        var id :| id in todo;
        if id in o.queue {
          rows := rows[id := RearmRow(config, now, jitter, id, rows[id], o.queue[id], ChargedIn(o, id))];
        }
        todo := todo - {id};
      }
    }

    method Rearm(now: int, jitter: real, o: Observation, active: nat)
      modifies this
      ensures State() == RearmFailure(old(State()), config, now, jitter, o, active)
    {
      var retry := FailureRetry(record, config, now, jitter, o);
      var native := RearmNative(record, config, now, o, active, retry);
      record := record.(retry := Some(retry));
      rows := CheckpointNative(rows, native);
      RearmEach(now, jitter, o);
      ResetSlot(now + MinimumDelay(config));
    }

    method Finish(now: int, active: nat, observed: Option<nat>, nextAttemptAt: Option<int>) returns (rearmed: bool)
      modifies this
      ensures State() == FinishEvent(old(State()), config, now, active, observed, nextAttemptAt)
      ensures rearmed == alarm.Some?
    {
      rows := CheckpointNative(rows, FinishNative(record, config, now, active, observed, nextAttemptAt));
      ResetSlot(now + MinimumDelay(config));
      rearmed := alarm.Some?;
    }
  }
}
