/**
 * The durable queue of due lanes (packages/platform-cloudflare/src/internal/due-queue.ts).
 * Every operation is a function from the table to the table; a rejected compare-and-set
 * returns the table unchanged. `earliest` is the smallest deadline the enclosing transaction
 * has asked for so far, which the buffered view keeps per lane.
 */
module DueQueue {
  import opened Common

  /** The framework's reserved lanes, and the host lanes outside their namespace. */
  datatype LaneId = Native | Publication | Projection | Messages | RecoveryEvents | Host(name: string)

  const MINIMUM_RETRY := 1_000
  const MAXIMUM_NO_PROGRESS_REARMS := 8
  const PARKED_RETRY := 3_600_000

  datatype LaneState = Idle | Pending | Parked

  datatype DueLane = DueLane(
    revision: nat,
    dueAt: Option<int>,
    stalls: nat,
    progressKey: Option<nat>,
    notBefore: int,
    state: LaneState,
    reported: bool)

  type Table = map<LaneId, DueLane>

  function Find(t: Table, id: LaneId): Option<DueLane> {
    if id in t then Some(t[id]) else None
  }

  predicate IsDue(t: Table, id: LaneId) {
    id in t && t[id].dueAt.Some?
  }

  predicate IsParked(t: Table, id: LaneId) {
    id in t && t[id].state.Parked?
  }

  /** Enrolment. Only recorded progress renews the budget and changes the revision. */
  function DirtyRow(row: Option<DueLane>, earliest: int, progress: bool, key: Option<nat>): DueLane {
    match row
    case None => DueLane(1, Some(earliest), 0, key, 0, Pending, false)
    case Some(r) =>
      DueLane(
        if progress then r.revision + 1 else r.revision,
        if progress then Some(earliest)
        else Some(Max(r.notBefore, if r.dueAt.Some? then Min(r.dueAt.value, earliest) else earliest)),
        if progress then 0 else r.stalls,
        if key.Some? then key else r.progressKey,
        if progress then 0 else r.notBefore,
        if progress || r.stalls < MAXIMUM_NO_PROGRESS_REARMS then Pending else r.state,
        if progress then false else r.reported)
  }

  function Dirty(t: Table, id: LaneId, earliest: int, progress: bool): Table {
    t[id := DirtyRow(Find(t, id), earliest, progress, None)]
  }

  /** A cursor that is not strictly newer than the stored one is a replayed hint. */
  predicate AcceptsCursor(t: Table, id: LaneId, cursor: nat) {
    id in t && t[id].progressKey.Some? ==> cursor > t[id].progressKey.value
  }

  function Progress(t: Table, id: LaneId, earliest: int, cursor: nat): Table {
    if AcceptsCursor(t, id, cursor)
    then t[id := DirtyRow(Find(t, id), earliest, true, Some(cursor))]
    else t
  }

  function Register(t: Table, id: LaneId): Table {
    if id in t then t else t[id := DueLane(0, Some(0), 0, None, 0, Pending, false)]
  }

  predicate Claimable(t: Table, id: LaneId, revision: nat, now: int, native: bool) {
    && id in t
    && t[id].revision == revision
    && t[id].dueAt.Some?
    && (t[id].dueAt.value <= now || (native && t[id].notBefore <= now))
  }

  /** Charges one attempt: the lane stays due, behind its retry floor. */
  function ClaimRow(r: DueLane, now: int): DueLane {
    var stalls := Min(r.stalls + 1, MAXIMUM_NO_PROGRESS_REARMS);
    var exhausted := stalls >= MAXIMUM_NO_PROGRESS_REARMS;
    var notBefore := now + if exhausted then PARKED_RETRY else Min(60_000, MINIMUM_RETRY * Pow2(r.stalls));
    r.(stalls := stalls, notBefore := notBefore, dueAt := Some(notBefore),
       state := if exhausted then Parked else Pending)
  }

  function Claim(t: Table, id: LaneId, revision: nat, now: int, native: bool): Table {
    if Claimable(t, id, revision, now, native) then t[id := ClaimRow(t[id], now)] else t
  }

  function RestRow(r: DueLane, dueAt: Option<int>): DueLane {
    match dueAt
    case None => r.(dueAt := None, state := Idle, stalls := 0, notBefore := 0, reported := false)
    case Some(at) =>
      r.(dueAt := Some(Max(at, r.notBefore)),
         state := if r.stalls >= MAXIMUM_NO_PROGRESS_REARMS then Parked else Pending)
  }

  /** Acknowledges a wave, unless the revision it claimed has moved on. */
  function Complete(t: Table, id: LaneId, revision: nat, dueAt: Option<int>): Table {
    if id in t && t[id].revision == revision
    then t[id := RestRow(t[id], dueAt).(revision := revision + 1)]
    else t
  }

  /** Native checkpoints are fenced by the dirty/processed generation, not by a revision. */
  function CheckpointNative(t: Table, dueAt: Option<int>): Table {
    if Native !in t then t
    else
      var rest := RestRow(t[Native], dueAt);
      t[Native := if IsParked(t, Publication) then rest.(dueAt := None) else rest]
  }

  ghost predicate Earliest(t: Table, n: int) {
    && (exists id :: IsDue(t, id) && t[id].dueAt.value == n)
    && (forall id :: IsDue(t, id) ==> n <= t[id].dueAt.value)
  }

  /** The earliest pending deadline; None is the source's `Infinity`. */
  ghost function Next(t: Table): (next: Option<int>) {
    if exists n :: Earliest(t, n) then
      var n :| Earliest(t, n);
      Some(n)
    else None
  }

  lemma NextIsEarliest(t: Table)
    ensures Next(t).Some? ==> Earliest(t, Next(t).value)
    ensures Next(t).None? ==> forall id :: !IsDue(t, id)
  {
    if id :| IsDue(t, id) {
      var n := EarliestOf(t, t.Keys);
    }
  }

  lemma EarliestOf(t: Table, ids: set<LaneId>) returns (n: int)
    requires ids <= t.Keys && exists id :: id in ids && IsDue(t, id)
    ensures exists id :: id in ids && IsDue(t, id) && t[id].dueAt.value == n
    ensures forall id :: id in ids && IsDue(t, id) ==> n <= t[id].dueAt.value
    ensures ids == t.Keys ==> Earliest(t, n)
    decreases |ids|
  {
    var id :| id in ids && IsDue(t, id);
    n := t[id].dueAt.value;
    if exists other :: other in ids - {id} && IsDue(t, other) {
      var rest := EarliestOf(t, ids - {id});
      n := Min(n, rest);
    }
  }

  lemma EarliestIsNext(t: Table, n: int)
    requires Earliest(t, n)
    ensures Next(t) == Some(n)
  {
    NextIsEarliest(t);
    var id :| IsDue(t, id) && t[id].dueAt.value == n;
  }

  /** What every operation keeps of a row, given nonnegative times. */
  ghost predicate ValidRow(id: LaneId, r: DueLane) {
    && r.stalls <= MAXIMUM_NO_PROGRESS_REARMS
    && 0 <= r.notBefore
    && (r.dueAt.Some? ==> r.notBefore <= r.dueAt.value)
    && (r.state.Parked? ==> r.stalls == MAXIMUM_NO_PROGRESS_REARMS)
    && (r.state.Idle? ==> r.dueAt.None? && r.stalls == 0)
    && (r.dueAt.None? && id != Native ==> r.state.Idle?)
  }

  ghost predicate ValidTable(t: Table) {
    forall id :: id in t ==> ValidRow(id, t[id])
  }

  lemma EnrolmentKeepsValid(t: Table, id: LaneId, at: int, progress: bool, key: Option<nat>)
    requires ValidTable(t) && 0 <= at
    ensures ValidTable(t[id := DirtyRow(Find(t, id), at, progress, key)])
    ensures IsParked(t, Publication) && id != Publication ==> IsParked(t[id := DirtyRow(Find(t, id), at, progress, key)], Publication)
    ensures IsParked(t, Publication) && !progress ==> IsParked(t[id := DirtyRow(Find(t, id), at, progress, key)], Publication)
  {
    var row := DirtyRow(Find(t, id), at, progress, key);
    assert ValidRow(id, row);
  }

  lemma ClaimKeepsValid(t: Table, id: LaneId, revision: nat, now: int, native: bool)
    requires ValidTable(t) && 0 <= now
    ensures ValidTable(Claim(t, id, revision, now, native))
  {
    if Claimable(t, id, revision, now, native) {
      assert ValidRow(id, ClaimRow(t[id], now));
    }
  }

  lemma CompletionKeepsValid(t: Table, id: LaneId, revision: nat, due: Option<int>)
    requires ValidTable(t) && (due.Some? ==> 0 <= due.value)
    ensures ValidTable(Complete(t, id, revision, due))
    ensures ValidTable(CheckpointNative(t, due))
  {
    if id in t { assert ValidRow(id, RestRow(t[id], due)); }
    if Native in t { assert ValidRow(Native, RestRow(t[Native], due)); }
  }

  /** A claim never hides a lane, and leaves its revision for the wave to acknowledge. */
  lemma ClaimKeepsLaneDue(t: Table, id: LaneId, revision: nat, now: int, native: bool)
    requires Claimable(t, id, revision, now, native)
    ensures var after := Claim(t, id, revision, now, native);
            && IsDue(after, id) && after[id].revision == revision
            && after[id].dueAt.value > now
            && forall other :: other != id ==> Find(after, other) == Find(t, other)
  {
  }

  datatype Enrolment = Enrolment(at: int, progress: bool)

  function EnrolAll(t: Table, id: LaneId, enrolments: seq<Enrolment>): Table
    decreases enrolments
  {
    if enrolments == [] then t
    else EnrolAll(Dirty(t, id, enrolments[0].at, enrolments[0].progress), id, enrolments[1..])
  }

  lemma {:induction false} EnrolmentRevision(t: Table, id: LaneId, es: seq<Enrolment>)
    requires id in t && t[id].dueAt.Some?
    ensures var after := EnrolAll(t, id, es);
            && IsDue(after, id)
            && t[id].revision <= after[id].revision
            && (t[id].revision < after[id].revision <==> exists e :: e in es && e.progress)
    decreases es
  {
    if es != [] {
      EnrolmentRevision(Dirty(t, id, es[0].at, es[0].progress), id, es[1..]);
      assert es == [es[0]] + es[1..];
    }
  }

  /**
   * What a wave's acknowledgement can hide. A wave claims a lane, any enrolments race it, and
   * the finished wave asks to make the lane idle: the lane is idle afterwards if and only if
   * none of the racing enrolments recorded progress. Every enrolment that did survives.
   */
  lemma RacingEnrolmentSurvivesExactlyWhenItRecordsProgress(t: Table, id: LaneId, now: int, es: seq<Enrolment>)
    requires id in t && Claimable(t, id, t[id].revision, now, false)
    ensures var claimed := Claim(t, id, t[id].revision, now, false);
            var raced := EnrolAll(claimed, id, es);
            var after := Complete(raced, id, t[id].revision, None);
            && id in after
            && (after[id].dueAt.Some? <==> exists e :: e in es && e.progress)
            && (after[id].dueAt.Some? ==> after == raced)
  {
    var claimed := Claim(t, id, t[id].revision, now, false);
    EnrolmentRevision(claimed, id, es);
  }

  /** The failing input: a cursorless hint that lands between the claim and the acknowledgement. */
  lemma CursorlessHintCanBeAcknowledgedUnserved()
    ensures exists t: Table, id, now: int, hint: Enrolment ::
              && id in t && Claimable(t, id, t[id].revision, now, false) && hint.at >= now
              && !IsDue(Complete(EnrolAll(Claim(t, id, t[id].revision, now, false), id, [hint]), id, t[id].revision, None), id)
  {
    var host := Host("outbox");
    var t: Table := map[host := DueLane(1, Some(5), 0, None, 0, Pending, false)];
    var hint := Enrolment(7, false);
    RacingEnrolmentSurvivesExactlyWhenItRecordsProgress(t, host, 5, [hint]);
    assert Claimable(t, host, t[host].revision, 5, false);
    assert !IsDue(Complete(EnrolAll(Claim(t, host, t[host].revision, 5, false), host, [hint]), host, t[host].revision, None), host);
  }
}
