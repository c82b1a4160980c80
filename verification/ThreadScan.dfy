/**
 * Classifying the nonterminal ledger rows of a native checkpoint
 * (packages/platform-cloudflare/src/Alarm.ts, `stableExternalWait` and the final scan).
 */
module ThreadScan {
  import opened Common
  import opened Maintenance

  datatype RowState =
    Suspended | Joined | Unknown | Admitted | InputApplied | Joining | Ready | Running | Settled | Terminalizing

  datatype Decision = SettleAborted | AwaitParentEstablishment | ApplyInput | OtherDecision

  datatype Disposition = UnknownOutcome | Repaired | OtherDisposition

  datatype Report = Report(decision: Decision, disposition: Disposition)

  datatype Row = Row(key: Key, state: RowState)

  /** The nonterminal Submissions of each Thread, in queue order. */
  type Ledger = map<ThreadId, seq<Row>>

  function Queue(l: Ledger, t: ThreadId): seq<Row> {
    if t in l then l[t] else []
  }

  ghost predicate WellFormed(l: Ledger) {
    forall t, r :: t in l && r in l[t] ==> r.key.thread == t
  }

  ghost predicate SameRows(a: Ledger, b: Ledger) {
    forall t :: Queue(a, t) == Queue(b, t)
  }

  /** What an event knows when it classifies: unfinished recoveries, faults, waits and reports. */
  datatype Knowledge = Knowledge(
    pending: set<ThreadId>,
    faults: set<ThreadId>,
    parked: set<Key>,
    reports: map<Key, Report>)

  predicate Decided(reports: map<Key, Report>, key: Key, decision: Decision) {
    key in reports && reports[key].decision == decision
  }

  predicate StableExternalWait(row: Row, reports: map<Key, Report>) {
    !Decided(reports, row.key, SettleAborted) &&
    match row.state
    case Suspended => true
    case Joined => true
    case Unknown => row.key in reports && reports[row.key].disposition == UnknownOutcome
    case Admitted => Decided(reports, row.key, AwaitParentEstablishment)
    case _ => false
  }

  predicate Waiting(row: Row, k: Knowledge) {
    && row.key.thread !in k.pending
    && row.key.thread !in k.faults
    && (row.key in k.parked || StableExternalWait(row, k.reports))
  }

  /** Only recovered uncertainty releases later input of its Thread. */
  predicate Released(row: Row, k: Knowledge) {
    row.state == Unknown && Waiting(row, k)
  }

  function Head(q: seq<Row>, k: Knowledge): Option<Row> {
    if q == [] then None else if Released(q[0], k) then Head(q[1..], k) else Some(q[0])
  }

  predicate DormantFollower(row: Row, k: Knowledge) {
    row.state == Ready && Decided(k.reports, row.key, ApplyInput)
  }

  /** Whether a Thread's queue still needs a pass, given whether its head is known to wait. */
  predicate AutonomousFrom(q: seq<Row>, k: Knowledge, headWaits: Option<bool>)
    decreases q
  {
    q != [] &&
    if Released(q[0], k) then AutonomousFrom(q[1..], k, headWaits)
    else
      var next := if headWaits.None? then Some(Waiting(q[0], k)) else headWaits;
      || (!(headWaits == Some(true) && DormantFollower(q[0], k)) && !Waiting(q[0], k))
      || AutonomousFrom(q[1..], k, next)
  }

  predicate QuietQueue(q: seq<Row>, k: Knowledge) {
    !AutonomousFrom(q, k, None)
  }

  ghost predicate Quiet(l: Ledger, k: Knowledge) {
    forall t :: QuietQueue(Queue(l, t), k)
  }

  // ------------------------------------------------------------------ the scan loop

  function Project(rows: seq<Row>, t: ThreadId): seq<Row> {
    if rows == [] then []
    else Project(rows[..|rows| - 1], t) + if rows[|rows| - 1].key.thread == t then [rows[|rows| - 1]] else []
  }

  function HeadWaits(q: seq<Row>, k: Knowledge): Option<bool> {
    var h := Head(q, k);
    if h.None? then None else Some(Waiting(h.value, k))
  }

  lemma {:induction false} AutonomousAppend(q: seq<Row>, row: Row, k: Knowledge, waits: Option<bool>)
    ensures var before := if waits.Some? then waits else HeadWaits(q, k);
            AutonomousFrom(q + [row], k, waits) ==
              (AutonomousFrom(q, k, waits)
               || (!Released(row, k) && !(before == Some(true) && DormantFollower(row, k)) && !Waiting(row, k)))
    decreases q
  {
    if q == [] {
      assert q + [row] == [row];
      assert [row][1..] == [];
    } else {
      assert (q + [row])[0] == q[0] && (q + [row])[1..] == q[1..] + [row];
      var next := if Released(q[0], k) then waits else if waits.None? then Some(Waiting(q[0], k)) else waits;
      AutonomousAppend(q[1..], row, k, next);
    }
  }

  lemma {:induction false} HeadAppend(q: seq<Row>, row: Row, k: Knowledge)
    ensures Head(q + [row], k) == if Head(q, k).Some? then Head(q, k) else if Released(row, k) then None else Some(row)
  {
    if q == [] {
      assert q + [row] == [row];
      assert [row][1..] == [];
    } else {
      assert (q + [row])[1..] == q[1..] + [row];
      HeadAppend(q[1..], row, k);
    }
  }

  /** The one-pass scan over the flat worklist finds work exactly when some Thread's queue has it. */
  method ClassifyRemaining(remaining: seq<Row>, k: Knowledge) returns (autonomous: bool)
    ensures autonomous <==> exists t :: AutonomousFrom(Project(remaining, t), k, None)
  {
    var waitingHeads: map<ThreadId, bool> := map[];
    autonomous := false;
    assert forall t :: Project([], t) == [];
    for i := 0 to |remaining|
      invariant forall t :: (if t in waitingHeads then Some(waitingHeads[t]) else None) == HeadWaits(Project(remaining[..i], t), k)
      invariant autonomous <==> exists t :: AutonomousFrom(Project(remaining[..i], t), k, None)
    {
      var row := remaining[i];
      assert remaining[..i + 1][..i] == remaining[..i];
      forall t ensures Project(remaining[..i + 1], t) == Project(remaining[..i], t) + if row.key.thread == t then [row] else [] {
      }
      AutonomousAppend(Project(remaining[..i], row.key.thread), row, k, None);
      HeadAppend(Project(remaining[..i], row.key.thread), row, k);
      ghost var was := autonomous;
      if !Released(row, k) {
        var headWaits := if row.key.thread in waitingHeads then Some(waitingHeads[row.key.thread]) else None;
        if headWaits.None? {
          waitingHeads := waitingHeads[row.key.thread := Waiting(row, k)];
        }
        if !(headWaits == Some(true) && DormantFollower(row, k)) && !Waiting(row, k) {
          autonomous := true;
        }
      }
      assert forall t :: t != row.key.thread ==> Project(remaining[..i + 1], t) == Project(remaining[..i], t);
      if autonomous && !was {
        assert AutonomousFrom(Project(remaining[..i + 1], row.key.thread), k, None);
      }
      if was {
        var t :| AutonomousFrom(Project(remaining[..i], t), k, None);
        assert AutonomousFrom(Project(remaining[..i + 1], t), k, None);
      }
    }
    assert remaining[..|remaining|] == remaining;
  }

  // ----------------------------------------------------------------- what quiet means

  /** In a quiet queue every row waits, except plain queued input behind a waiting head. */
  lemma {:induction false} QuietRows(q: seq<Row>, k: Knowledge, waits: Option<bool>)
    requires !AutonomousFrom(q, k, waits)
    ensures forall r :: r in q ==> Waiting(r, k) || DormantFollower(r, k)
    ensures waits != Some(true) && Head(q, k).Some? ==> Waiting(Head(q, k).value, k)
    decreases q
  {
    if q != [] {
      var next := if Released(q[0], k) then waits else if waits.None? then Some(Waiting(q[0], k)) else waits;
      QuietRows(q[1..], k, next);
    }
  }

  lemma PendingQueueIsAutonomous(q: seq<Row>, k: Knowledge, t: ThreadId)
    requires q != [] && q[0].key.thread == t && (t in k.pending || t in k.faults)
    ensures !QuietQueue(q, k)
  {
  }

  /** Everything one view finds waiting the other does too, from the same reports. */
  ghost predicate WaitsAtLeast(q: seq<Row>, k: Knowledge, j: Knowledge) {
    forall r :: r in q ==>
      && (Waiting(r, k) ==> Waiting(r, j))
      && (r.key in k.reports <==> r.key in j.reports)
      && (r.key in k.reports ==> k.reports[r.key] == j.reports[r.key])
  }

  lemma {:induction false} QuietIsMonotone(q: seq<Row>, k: Knowledge, j: Knowledge, waits: Option<bool>)
    requires !AutonomousFrom(q, k, waits) && WaitsAtLeast(q, k, j)
    ensures !AutonomousFrom(q, j, waits)
    decreases q
  {
    if q != [] {
      assert forall r :: r in q[1..] ==> r in q;
      var next := if Released(q[0], k) then waits else if waits.None? then Some(Waiting(q[0], k)) else waits;
      QuietIsMonotone(q[1..], k, j, next);
      assert q[0] in q;
    }
  }
}
