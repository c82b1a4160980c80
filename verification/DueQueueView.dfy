/**
 * The write-back view in front of the queue table (due-queue.ts, `make`). Lane changes are
 * buffered per source transaction, nested transactions stack frames, and one flush with a
 * revision check per lane runs before the outermost commit.
 *
 * The reference meaning of a source transaction is `Eval`: plain nested transactions over
 * values, where a failed child restores what its parent saw. `RunTransaction` shows that the
 * buffered view computes exactly that.
 */
module DueQueueView {
  import opened Common
  import opened DueQueue

  /** What a transaction body sees: the table, and the earliest deadline asked for per lane. */
  datatype Intent = Intent(table: Table, deadlines: map<LaneId, int>)

  datatype Op =
    | Enrol(id: LaneId, dueAt: int, progress: bool)
    | Notice(id: LaneId, dueAt: int, cursor: nat)
    | Acknowledge(id: LaneId, revision: nat, next: Option<int>)
    | Discover(id: LaneId)
    | Charge(id: LaneId, revision: nat, now: int, native: bool)
    | Rest(next: Option<int>)
    | Child(body: seq<Op>, fails: bool)

  function EarliestAsked(deadlines: map<LaneId, int>, id: LaneId, dueAt: int): int {
    if id in deadlines then Min(deadlines[id], dueAt) else dueAt
  }

  function Enrolled(i: Intent, id: LaneId, dueAt: int, progress: bool, key: Option<nat>): Intent {
    var earliest := EarliestAsked(i.deadlines, id, dueAt);
    Intent(i.table[id := DirtyRow(Find(i.table, id), earliest, progress, key)], i.deadlines[id := earliest])
  }

  function Eval(i: Intent, op: Op): Intent
    decreases op
  {
    match op
    case Enrol(id, dueAt, progress) => Enrolled(i, id, dueAt, progress, None)
    case Notice(id, dueAt, cursor) =>
      if AcceptsCursor(i.table, id, cursor) then Enrolled(i, id, dueAt, true, Some(cursor)) else i
    case Acknowledge(id, revision, next) => i.(table := Complete(i.table, id, revision, next))
    case Discover(id) => i.(table := Register(i.table, id))
    case Charge(id, revision, now, native) => i.(table := Claim(i.table, id, revision, now, native))
    case Rest(next) => i.(table := CheckpointNative(i.table, next))
    case Child(body, fails) => if fails then i else EvalAll(i, body)
  }

  function EvalAll(i: Intent, ops: seq<Op>): Intent
    decreases ops
  {
    if ops == [] then i else EvalAll(Eval(i, ops[0]), ops[1..])
  }

  datatype Change = Change(before: Option<DueLane>, after: DueLane)

  datatype Frame = Frame(
    rows: Option<Table>,
    changes: map<LaneId, Change>,
    deadlines: map<LaneId, int>,
    savepoint: Table)

  function Overlay(base: Table, changes: map<LaneId, Change>): Table {
    map id | id in base.Keys + changes.Keys :: if id in changes then changes[id].after else base[id]
  }

  /** The cached rows are the table they were read from, under the unflushed changes. */
  ghost predicate Consistent(rows: Option<Table>, changes: map<LaneId, Change>, base: Table) {
    && (rows.None? ==> changes == map[])
    && (rows.Some? ==> rows.value == Overlay(base, changes))
    && (forall id :: id in changes ==> changes[id].before == Find(base, id))
  }

  /** Whether the conditional upsert of one lane takes effect on the stored table. */
  predicate Accepted(sql: Table, id: LaneId, change: Change) {
    id !in sql || (change.before.Some? && sql[id].revision == change.before.value.revision)
  }

  predicate Effective(change: Change) {
    change.before != Some(change.after)
  }

  function EffectiveChanges(changes: map<LaneId, Change>): map<LaneId, Change> {
    map id | id in changes && Effective(changes[id]) :: changes[id]
  }

  ghost predicate AllAccepted(sql: Table, changes: map<LaneId, Change>) {
    forall id :: id in changes ==> Accepted(sql, id, changes[id])
  }

  lemma OverlayPut(base: Table, changes: map<LaneId, Change>, id: LaneId, change: Change)
    ensures Overlay(base, changes[id := change]) == Overlay(base, changes)[id := change.after]
  {
  }

  lemma OverlayNothing(base: Table)
    ensures Overlay(base, map[]) == base
  {
  }

  /** The rows once every change but those still to do is upserted. */
  ghost predicate Flushed(start: Table, changes: map<LaneId, Change>, todo: set<LaneId>, sql: Table) {
    && sql.Keys == start.Keys + (changes.Keys - todo)
    && (forall id :: id in sql ==> sql[id] == if id in changes && id !in todo then changes[id].after else start[id])
    && (forall id :: id in changes && id !in todo ==> Accepted(start, id, changes[id]))
  }

  lemma FlushOne(start: Table, changes: map<LaneId, Change>, todo: set<LaneId>, sql: Table, id: LaneId)
    requires Flushed(start, changes, todo, sql) && id in todo && todo <= changes.Keys
    ensures Accepted(sql, id, changes[id]) <==> Accepted(start, id, changes[id])
    ensures Accepted(start, id, changes[id]) ==> Flushed(start, changes, todo - {id}, sql[id := changes[id].after])
  {
    assert id in sql <==> id in start;
  }

  lemma FlushedAll(start: Table, changes: map<LaneId, Change>, sql: Table)
    requires Flushed(start, changes, {}, sql)
    ensures AllAccepted(start, changes) && sql == Overlay(start, changes)
  {
  }

  /** The flush loop, on the rows the transaction sees: all the upserts, or the first refusal. */
  method Upsert(start: Table, changes: map<LaneId, Change>) returns (ok: bool, sql: Table)
    ensures ok <==> AllAccepted(start, changes)
    ensures ok ==> sql == Overlay(start, changes)
  {
    var todo := changes.Keys;
    sql := start;
    assert Flushed(start, changes, todo, sql);
    while todo != {}
      invariant todo <= changes.Keys && Flushed(start, changes, todo, sql)
      decreases |todo|
    {
      var id :| id in todo;
      FlushOne(start, changes, todo, sql, id);
      if !Accepted(sql, id, changes[id]) {
        return false, sql;
      }
      sql := sql[id := changes[id].after];
      todo := todo - {id};
    }
    FlushedAll(start, changes, sql);
    return true, sql;
  }

  class View {
    /** The rows a crash would leave, and the rows the open SQL transaction sees. */
    var committed: Table
    var sql: Table
    var rows: Option<Table>
    var changes: map<LaneId, Change>
    var deadlines: map<LaneId, int>
    var frames: seq<Frame>
    ghost var base: Table

    ghost predicate Valid()
      reads this
    {
      && Consistent(rows, changes, base)
      && (forall k :: 0 <= k < |frames| ==> Consistent(frames[k].rows, frames[k].changes, base))
      && (rows.None? ==> forall k :: 0 <= k < |frames| ==> frames[k].rows.None?)
      && (forall j, k :: 0 <= j < k < |frames| && frames[j].rows.Some? ==> frames[k].rows.Some?)
      && (frames != [] ==> frames[0].changes == map[] && frames[0].deadlines == map[] && frames[0].savepoint == committed)
      && (frames == [] ==> changes == map[] && deadlines == map[] && sql == committed)
    }

    ghost function Seen(): Intent
      reads this
    {
      Intent(if rows.Some? then rows.value else sql, deadlines)
    }

    /** No statement outside the view has touched the queue table in this transaction. */
    ghost predicate Undisturbed()
      reads this
    {
      && sql == committed
      && (rows.Some? ==> base == sql)
      && (forall k :: 0 <= k < |frames| ==> frames[k].savepoint == sql)
    }

    constructor (stored: Table)
      ensures Valid() && Undisturbed() && frames == [] && committed == stored && Seen() == Intent(stored, map[])
    {
      committed, sql, base := stored, stored, stored;
      rows, changes, deadlines, frames := None, map[], map[], [];
    }

    method Read() returns (t: Table)
      requires Valid()
      modifies this`rows, this`base
      ensures Valid() && Seen() == old(Seen()) && t == Seen().table
      ensures old(Undisturbed()) ==> Undisturbed()
      ensures frames != [] ==> rows.Some?
    {
      if rows.Some? {
        return rows.value;
      }
      t := sql;
      if frames != [] || |t| <= 128 {
        rows, base := Some(t), t;
        assert Overlay(base, changes) == t;
      }
    }

    /** One row outside a transaction is written at once, unless its base revision has moved on. */
    method WriteThrough(id: LaneId, after: DueLane) returns (ok: bool)
      requires Valid() && frames == [] && Undisturbed()
      modifies this`rows, this`base, this`sql, this`committed
      ensures Valid() && Undisturbed() && ok
      ensures committed == old(Seen()).table[id := after] && Seen() == Intent(committed, map[])
    {
      var t := Read();
      OverlayNothing(base);
      assert t == sql;
      if Find(t, id) == Some(after) {
        assert t[id := after] == t;
        return true;
      }
      ok := Accepted(sql, id, Change(Find(t, id), after));
      if ok { Store(t[id := after]); }
    }

    method Store(t: Table)
      requires Valid() && frames == []
      modifies this`rows, this`base, this`sql, this`committed
      ensures Valid() && Undisturbed() && committed == t && Seen() == Intent(t, map[])
    {
      sql, committed, base := t, t, t;
      rows := if |t| <= 128 then Some(t) else None;
      OverlayNothing(t);
    }

    /** One row inside a transaction is buffered; an equal row is not even that. */
    method Put(id: LaneId, after: DueLane)
      requires Valid() && frames != []
      modifies this`rows, this`base, this`changes
      ensures Valid() && Seen() == Intent(old(Seen()).table[id := after], old(deadlines))
      ensures Find(old(Seen()).table, id) == Some(after) ==> changes == old(changes)
      ensures old(Undisturbed()) ==> Undisturbed()
    {
      var t := Read();
      if Find(t, id) == Some(after) {
        assert t[id := after] == t;
        return;
      }
      var before := if id in changes then changes[id].before else Find(t, id);
      ghost var was := changes;
      changes := changes[id := Change(before, after)];
      rows := Some(t[id := after]);
      OverlayPut(base, was, id, Change(before, after));
    }

    method Enrol(id: LaneId, dueAt: int, progress: bool, key: Option<nat>)
      requires Valid() && (frames == [] ==> Undisturbed())
      modifies this`rows, this`base, this`changes, this`deadlines, this`sql, this`committed
      ensures Valid()
      ensures frames != [] ==> Seen() == Enrolled(old(Seen()), id, dueAt, progress, key) && sql == old(sql) && committed == old(committed)
      ensures frames == [] ==>
                && Seen() == Intent(old(Seen()).table[id := DirtyRow(Find(old(Seen()).table, id), dueAt, progress, key)], map[])
                && committed == Seen().table
      ensures old(Undisturbed()) ==> Undisturbed()
    {
      var t := Read();
      var earliest := EarliestAsked(deadlines, id, dueAt);
      if frames == [] {
        var _ := WriteThrough(id, DirtyRow(Find(t, id), earliest, progress, key));
      } else {
        deadlines := deadlines[id := earliest];
        Put(id, DirtyRow(Find(t, id), earliest, progress, key));
      }
    }

    method Begin()
      requires Valid()
      modifies this`changes, this`deadlines, this`frames
      ensures Valid() && Seen() == old(Seen()) && frames == old(frames) + [Frame(rows, changes, deadlines, sql)]
      ensures changes == old(changes) && deadlines == old(deadlines)
      ensures old(Undisturbed()) ==> Undisturbed()
    {
      frames := frames + [Frame(rows, changes, deadlines, sql)];
    }

    /** The end of a nested transaction: keep its intent, or restore what its parent saw. */
    method SettleChild(succeeded: bool)
      requires Valid() && |frames| > 1
      modifies this`sql, this`rows, this`changes, this`deadlines, this`frames
      ensures Valid() && frames == old(frames[..|frames| - 1])
      ensures succeeded ==> Seen() == old(Seen()) && sql == old(sql)
      ensures !succeeded ==>
                var f := old(frames[|frames| - 1]);
                sql == f.savepoint && Seen() == Intent(if f.rows.Some? then f.rows.value else f.savepoint, f.deadlines)
      ensures old(Undisturbed()) ==> Undisturbed()
    {
      var frame := frames[|frames| - 1];
      frames := frames[..|frames| - 1];
      if !succeeded {
        sql, rows, changes, deadlines := frame.savepoint, frame.rows, frame.changes, frame.deadlines;
      }
    }

    /**
     * The end of the outermost transaction. A body that succeeded commits exactly when every
     * buffered lane still has the revision its change was computed from.
     */
    method SettleOutermost(bodySucceeded: bool) returns (success: bool)
      requires Valid() && |frames| == 1
      modifies this
      ensures Valid() && frames == [] && deadlines == map[]
      ensures success <==> bodySucceeded && AllAccepted(old(sql), EffectiveChanges(old(changes)))
      ensures success ==> committed == Overlay(old(sql), EffectiveChanges(old(changes)))
      ensures !success ==> committed == old(committed) && Seen() == Intent(committed, map[])
      ensures old(Undisturbed()) ==> Undisturbed() && success == bodySucceeded
      ensures old(Undisturbed()) && success ==> committed == old(Seen()).table && Seen() == Intent(committed, map[])
    {
      FlushedIsSeen(base, changes);
      success := false;
      if bodySucceeded {
        success, sql := Upsert(sql, EffectiveChanges(changes));
      }
      if success {
        committed := sql;
      } else {
        sql, rows := committed, None;
      }
      frames, changes, deadlines := [], map[], map[];
      base := if rows.Some? then rows.value else sql;
      OverlayNothing(base);
    }

    /** A statement on the queue table that does not go through the view. */
    method RawUpdate(id: LaneId, row: DueLane)
      requires Valid() && frames != []
      modifies this`sql
      ensures Valid() && sql == old(sql)[id := row]
    {
      sql := sql[id := row];
    }

    method RestNative(next: Option<int>)
      requires Valid() && Undisturbed() && frames != []
      modifies this`rows, this`base, this`changes
      ensures Valid() && Undisturbed() && Seen() == old(Seen()).(table := CheckpointNative(old(Seen()).table, next))
    {
      var t := Read();
      if Native in t {
        var rest := RestRow(t[Native], next);
        Put(Native, if IsParked(t, Publication) then rest.(dueAt := None) else rest);
      }
    }

    method Run(op: Op)
      requires Valid() && Undisturbed() && frames != []
      modifies this
      ensures Valid() && Undisturbed() && frames == old(frames) && committed == old(committed)
      ensures Seen() == Eval(old(Seen()), op)
      decreases op, 1
    {
      match op
      case Enrol(id, dueAt, progress) =>
        Enrol(id, dueAt, progress, None);
      case Notice(id, dueAt, cursor) =>
        var t := Read();
        if AcceptsCursor(t, id, cursor) {
          Enrol(id, dueAt, true, Some(cursor));
        }
      case Acknowledge(id, revision, next) =>
        var t := Read();
        if id in t && t[id].revision == revision {
          Put(id, RestRow(t[id], next).(revision := revision + 1));
        }
      case Discover(id) =>
        var t := Read();
        if id !in t { Put(id, DueLane(0, Some(0), 0, None, 0, Pending, false)); }
      case Charge(id, revision, now, native) =>
        var t := Read();
        if Claimable(t, id, revision, now, native) { Put(id, ClaimRow(t[id], now)); }
      case Rest(next) =>
        RestNative(next);
      case Child(body, fails) =>
        Begin();
        RunAll(body);
        SettleChild(!fails);
    }

    method RunAll(ops: seq<Op>)
      requires Valid() && Undisturbed() && frames != []
      modifies this
      ensures Valid() && Undisturbed() && frames == old(frames) && committed == old(committed)
      ensures Seen() == EvalAll(old(Seen()), ops)
      decreases ops, 0
    {
      if ops != [] {
        Run(ops[0]);
        RunAll(ops[1..]);
      }
    }

    /**
     * The whole source transaction refines the reference: it commits exactly what plain nested
     * transactions would, it commits nothing when its body fails, and the flush never refuses.
     */
    method RunTransaction(body: seq<Op>, fails: bool) returns (success: bool)
      requires Valid() && Undisturbed() && frames == []
      modifies this
      ensures Valid() && Undisturbed() && frames == []
      ensures success == !fails
      ensures committed == if fails then old(committed) else EvalAll(Intent(old(committed), map[]), body).table
      ensures Seen() == Intent(committed, map[])
    {
      Begin();
      OverlayNothing(committed);
      RunAll(body);
      success := SettleOutermost(!fails);
    }
  }

  /** Skipping the changes that restore the stored row loses nothing. */
  lemma FlushedIsSeen(base: Table, changes: map<LaneId, Change>)
    requires forall id :: id in changes ==> changes[id].before == Find(base, id)
    ensures Overlay(base, EffectiveChanges(changes)) == Overlay(base, changes)
    ensures AllAccepted(base, EffectiveChanges(changes))
  {
  }

  datatype Ask = Ask(dueAt: int, progress: bool)

  function Enrolments(id: LaneId, asks: seq<Ask>): (ops: seq<Op>)
    ensures |ops| == |asks|
  {
    seq(|asks|, k requires 0 <= k < |asks| => Enrol(id, asks[k].dueAt, asks[k].progress))
  }

  function Deadlines(asks: seq<Ask>): (ds: seq<int>)
    ensures |ds| == |asks|
  {
    seq(|asks|, k requires 0 <= k < |asks| => asks[k].dueAt)
  }

  predicate Progresses(asks: seq<Ask>) {
    exists a :: a in asks && a.progress
  }

  function Progressions(asks: seq<Ask>): nat {
    if asks == [] then 0 else (if asks[0].progress then 1 else 0) + Progressions(asks[1..])
  }

  /** Where enrolments that ask for `earliest` at the soonest leave a lane that had this row. */
  function CoalescedDue(row: Option<DueLane>, progress: bool, earliest: int): int {
    if progress || row.None? then earliest
    else Max(row.value.notBefore, if row.value.dueAt.Some? then Min(row.value.dueAt.value, earliest) else earliest)
  }

  /**
   * Coalescing: whatever enrolments of one lane a transaction makes, in whatever order, the lane
   * ends as if the earliest of them had been the only one, and renewed if any of them was progress.
   */
  lemma EnrolmentsCoalesce(i: Intent, id: LaneId, asks: seq<Ask>)
    requires asks != [] && id !in i.deadlines && forall a :: a in asks ==> a.dueAt >= 0
    ensures var after := EvalAll(i, Enrolments(id, asks));
            && id in after.table
            && after.table[id].dueAt == Some(CoalescedDue(Find(i.table, id), Progresses(asks), Smallest(Deadlines(asks))))
            && (Progresses(asks) || id !in i.table ==> after.table[id].notBefore == 0)
            && (id in i.table ==> after.table[id].revision == i.table[id].revision + Progressions(asks))
  {
    var first, tail := asks[0], asks[1..];
    assert Enrolments(id, asks)[1..] == Enrolments(id, tail);
    var next := Eval(i, Enrol(id, first.dueAt, first.progress));
    CoalesceFrom(next, id, tail, first.dueAt, Find(i.table, id), first.progress);
    assert Deadlines(asks)[1..] == Deadlines(tail);
    SmallestFold(Deadlines(asks));
    assert asks == [first] + tail;
  }

  function Smallest(s: seq<int>): (m: int)
    requires s != []
    ensures m in s && forall k :: 0 <= k < |s| ==> m <= s[k]
  {
    if |s| == 1 then s[0] else Min(s[0], Smallest(s[1..]))
  }

  function FoldMin(acc: int, s: seq<int>): int
    decreases s
  {
    if s == [] then acc else FoldMin(Min(acc, s[0]), s[1..])
  }

  lemma {:induction false} FoldMinIsSmallest(acc: int, s: seq<int>)
    ensures FoldMin(acc, s) == if s == [] then acc else Min(acc, Smallest(s))
    decreases s
  {
    if s != [] { FoldMinIsSmallest(Min(acc, s[0]), s[1..]); }
  }

  lemma SmallestFold(s: seq<int>)
    requires s != []
    ensures Smallest(s) == FoldMin(s[0], s[1..])
  {
    FoldMinIsSmallest(s[0], s[1..]);
  }

  /** One more enrolment: the renewed flag and the earliest deadline carry all that matters. */
  lemma {:induction false} CoalesceFrom(i: Intent, id: LaneId, asks: seq<Ask>, earliest: int, row: Option<DueLane>, renewed: bool)
    requires id in i.table && id in i.deadlines && i.deadlines[id] == earliest && earliest >= 0
    requires i.table[id].dueAt == Some(CoalescedDue(row, renewed, earliest))
    requires i.table[id].notBefore == if renewed || row.None? then 0 else row.value.notBefore
    requires forall a :: a in asks ==> a.dueAt >= 0
    ensures var after := EvalAll(i, Enrolments(id, asks));
            && id in after.table
            && after.table[id].dueAt == Some(CoalescedDue(row, renewed || Progresses(asks), FoldMin(earliest, Deadlines(asks))))
            && (renewed || Progresses(asks) || row.None? ==> after.table[id].notBefore == 0)
            && after.table[id].revision == i.table[id].revision + Progressions(asks)
    decreases asks
  {
    if asks != [] {
      var a, tail := asks[0], asks[1..];
      assert Enrolments(id, asks)[1..] == Enrolments(id, tail);
      assert Deadlines(asks)[1..] == Deadlines(tail);
      assert asks == [a] + tail;
      CoalesceFrom(Eval(i, Enrol(id, a.dueAt, a.progress)), id, tail, Min(earliest, a.dueAt), row, renewed || a.progress);
    }
  }
}
