/**
 * Recovery faults, their recipients and their notices in the Object's key-value storage
 * (packages/platform-cloudflare/src/Alarm.ts, 419 and 466-518). One request to that storage
 * carries at most 128 keys, so recipients are read, written and deleted in batches.
 */
module RecoveryStorage {
  import opened Common
  import opened Decimal
  import opened RecoveryFaults
  import DueQueue

  const BATCH := 128

  datatype Cell =
    | FaultCell(fault: Fault)
    | RecipientCell(id: SubmissionName)
    | NoticeCell(notice: Notice, sequence: nat)

  type Cells = map<string, Cell>

  datatype Address =
    | FaultAt(thread: ThreadName)
    | RecipientAt(thread: ThreadName, index: nat)
    | NoticeAt(sequence: nat)

  /** The key under which a cell is stored. */
  function Key(a: Address): string {
    match a
    case FaultAt(t) => "effect-agent:thread-recovery-fault:v1:" + t
    case RecipientAt(t, i) => "effect-agent:recovery-recipient:v1:" + (Numeral(|t|) + [':'] + (t + [':'] + Numeral(i)))
    case NoticeAt(n) => "effect-agent:thread-recovery-event:v1:" + Numeral(n)
  }

  lemma SamePrefix(p: string, x: string, y: string)
    requires p + x == p + y
    ensures x == y
  {
    assert x == (p + x)[|p|..] && y == (p + y)[|p|..];
  }

  lemma RecipientKeysDiffer(t: ThreadName, i: nat, u: ThreadName, j: nat)
    requires Key(RecipientAt(t, i)) == Key(RecipientAt(u, j))
    ensures t == u && i == j
  {
    var x, y := t + [':'] + Numeral(i), u + [':'] + Numeral(j);
    SamePrefix("effect-agent:recovery-recipient:v1:", Numeral(|t|) + [':'] + x, Numeral(|u|) + [':'] + y);
    SplitIsUnique(Numeral(|t|), x, Numeral(|u|), y, ':');
    NumeralsDiffer(|t|, |u|);
    assert t == x[..|t|] && u == y[..|u|];
    SamePrefix(t + [':'], Numeral(i), Numeral(j));
    NumeralsDiffer(i, j);
  }

  /** No two cells share a key, whatever Threads are called. */
  lemma KeysDiffer(a: Address, b: Address)
    requires Key(a) == Key(b)
    ensures a == b
  {
    assert Key(a)[13] == if a.RecipientAt? then 'r' else 't';
    assert Key(b)[13] == if b.RecipientAt? then 'r' else 't';
    assert !a.RecipientAt? ==> Key(a)[29] == if a.FaultAt? then 'f' else 'e';
    assert !b.RecipientAt? ==> Key(b)[29] == if b.FaultAt? then 'f' else 'e';
    if a.RecipientAt? {
      RecipientKeysDiffer(a.thread, a.index, b.thread, b.index);
    } else if a.FaultAt? {
      SamePrefix("effect-agent:thread-recovery-fault:v1:", a.thread, b.thread);
    } else {
      SamePrefix("effect-agent:thread-recovery-event:v1:", Numeral(a.sequence), Numeral(b.sequence));
      NumeralsDiffer(a.sequence, b.sequence);
    }
  }

  function At(cells: Cells, a: Address): Option<Cell> {
    if Key(a) in cells then Some(cells[Key(a)]) else None
  }

  /** What a state keeps where: recipients at indices 0 up to the count, notices not yet acknowledged. */
  function Content(s: State, a: Address): Option<Cell> {
    match a
    case FaultAt(t) => if t in s.faults then Some(FaultCell(s.faults[t].fault)) else None
    case RecipientAt(t, i) =>
      var ids := RecipientsOf(s.faults, t);
      if i < |ids| then Some(RecipientCell(ids[i])) else None
    case NoticeAt(n) => if s.acknowledged < n <= |s.log| then Some(NoticeCell(s.log[n - 1], n)) else None
  }

  ghost predicate Represents(cells: Cells, s: State) {
    forall a :: At(cells, a) == Content(s, a)
  }

  // ------------------------------------------------------------------ batches

  function RecipientKeys(t: ThreadName, start: nat, count: nat): (keys: seq<string>)
    requires start <= count
    ensures |keys| == Min(BATCH, count - start)
  {
    seq(Min(BATCH, count - start), i requires 0 <= i => Key(RecipientAt(t, start + i)))
  }

  function Entries(t: ThreadName, from: nat, ids: seq<SubmissionName>): (m: Cells)
    ensures |m| <= |ids|
  {
    if ids == [] then map[]
    else Entries(t, from, ids[..|ids| - 1])[Key(RecipientAt(t, from + |ids| - 1)) := RecipientCell(ids[|ids| - 1])]
  }

  predicate InRange(a: Address, t: ThreadName, from: nat, to: nat) {
    a.RecipientAt? && a.thread == t && from <= a.index < to
  }

  lemma {:induction false} EntriesHold(t: ThreadName, from: nat, ids: seq<SubmissionName>, a: Address)
    ensures At(Entries(t, from, ids), a) == if InRange(a, t, from, from + |ids|) then Some(RecipientCell(ids[a.index - from])) else None
  {
    if ids != [] {
      EntriesHold(t, from, ids[..|ids| - 1], a);
      var last := RecipientAt(t, from + |ids| - 1);
      if Key(a) == Key(last) { KeysDiffer(a, last); }
    }
  }

  lemma KeysInRange(t: ThreadName, start: nat, count: nat, a: Address)
    requires start <= count
    ensures Key(a) in RecipientKeys(t, start, count) <==> InRange(a, t, start, start + Min(BATCH, count - start))
  {
    var keys := RecipientKeys(t, start, count);
    if InRange(a, t, start, start + |keys|) {
      assert keys[a.index - start] == Key(a);
    }
    if Key(a) in keys {
      var i :| 0 <= i < |keys| && keys[i] == Key(a);
      KeysDiffer(a, RecipientAt(t, start + i));
    }
  }

  /** `after` is `before` with recipients `ids` stored from index `from` on. */
  ghost predicate Extended(before: Cells, after: Cells, t: ThreadName, from: nat, ids: seq<SubmissionName>) {
    forall a :: At(after, a) == if InRange(a, t, from, from + |ids|) then Some(RecipientCell(ids[a.index - from])) else At(before, a)
  }

  lemma PutExtends(before: Cells, t: ThreadName, from: nat, ids: seq<SubmissionName>)
    ensures Extended(before, before + Entries(t, from, ids), t, from, ids)
  {
    forall a
      ensures At(before + Entries(t, from, ids), a)
              == if InRange(a, t, from, from + |ids|) then Some(RecipientCell(ids[a.index - from])) else At(before, a)
    {
      EntriesHold(t, from, ids, a);
    }
  }

  lemma ExtendTwice(before: Cells, mid: Cells, after: Cells, t: ThreadName, from: nat, some: seq<SubmissionName>, more: seq<SubmissionName>)
    requires Extended(before, mid, t, from, some) && Extended(mid, after, t, from + |some|, more)
    ensures Extended(before, after, t, from, some + more)
  {
    forall a
      ensures At(after, a) == if InRange(a, t, from, from + |some + more|) then Some(RecipientCell((some + more)[a.index - from])) else At(before, a)
    {
      assert At(mid, a) == if InRange(a, t, from, from + |some|) then Some(RecipientCell(some[a.index - from])) else At(before, a);
      assert At(after, a) == if InRange(a, t, from + |some|, from + |some| + |more|) then Some(RecipientCell(more[a.index - from - |some|])) else At(mid, a);
    }
  }

  lemma ExtensionHolds(s: State, u: State, before: Cells, after: Cells, t: ThreadName, added: seq<SubmissionName>, a: Address)
    requires Represents(before, s) && Extended(before, after, t, |RecipientsOf(s.faults, t)|, added)
    requires t in u.faults && u.faults[t].recipients == RecipientsOf(s.faults, t) + added
    requires u == s.(faults := s.faults[t := u.faults[t]])
    requires a != FaultAt(t)
    ensures At(after, a) == Content(u, a)
  {
    assert At(before, a) == Content(s, a);
  }

  lemma BatchHolds(cells: Cells, values: Cells, t: ThreadName, start: nat, count: nat, ids: seq<SubmissionName>, j: nat)
    requires start < count == |ids| && j < Min(BATCH, count - start)
    requires values == map k | k in RecipientKeys(t, start, count) && k in cells :: cells[k]
    requires At(cells, RecipientAt(t, start + j)) == Some(RecipientCell(ids[start + j]))
    ensures var key := RecipientKeys(t, start, count)[j]; key in values && values[key] == RecipientCell(ids[start + j])
  {
    var keys := RecipientKeys(t, start, count);
    assert keys[j] == Key(RecipientAt(t, start + j));
    assert keys[j] in keys;
  }

  // ------------------------------------------------------------------ the transactions

  class RecoveryStore {
    var cells: Cells
    var sequence: nat
    var acknowledged: nat
    var rows: DueQueue.Table

    ghost predicate Holds(s: State)
      reads this
    {
      Represents(cells, s) && Counted(s.faults) && sequence == |s.log| && acknowledged == s.acknowledged <= |s.log| && rows == s.rows
    }

    constructor ()
      ensures Holds(INITIAL)
    {
      cells, sequence, acknowledged, rows := map[], 0, 0, map[];
    }

    // The platform refuses a request for more keys than this.
    method Get(keys: seq<string>) returns (values: Cells)
      requires |keys| <= BATCH
      ensures values == map k | k in keys && k in cells :: cells[k]
    {
      values := map k | k in keys && k in cells :: cells[k];
    }

    method Put(entries: Cells)
      requires |entries| <= BATCH
      modifies this`cells
      ensures cells == old(cells) + entries
    {
      cells := cells + entries;
    }

    method Delete(keys: seq<string>)
      requires |keys| <= BATCH
      modifies this`cells
      ensures cells == map k | k in old(cells) && k !in keys :: old(cells)[k]
    {
      cells := map k | k in cells && k !in keys :: cells[k];
    }

    method ReadRecipients(t: ThreadName, count: nat, ghost ids: seq<SubmissionName>) returns (r: seq<SubmissionName>)
      requires |ids| == count && forall i: nat :: i < count ==> At(cells, RecipientAt(t, i)) == Some(RecipientCell(ids[i]))
      ensures r == ids
    {
      r := [];
      var start := 0;
      while start < count
        invariant r == ids[..Min(start, count)]
      {
        var batch := ReadBatch(t, start, count, ids);
        r := r + batch;
        start := start + BATCH;
      }
    }

    method ReadBatch(t: ThreadName, start: nat, count: nat, ghost ids: seq<SubmissionName>) returns (r: seq<SubmissionName>)
      requires start < count == |ids|
      requires forall i: nat :: i < count ==> At(cells, RecipientAt(t, i)) == Some(RecipientCell(ids[i]))
      ensures r == ids[start..Min(start + BATCH, count)]
    {
      var keys := RecipientKeys(t, start, count);
      var values := Get(keys);
      forall j | 0 <= j < |keys| ensures keys[j] in values && values[keys[j]] == RecipientCell(ids[start..start + |keys|][j]) {
        BatchHolds(cells, values, t, start, count, ids, j);
      }
      r := Collect(keys, values, ids[start..start + |keys|]);
    }

    method Collect(keys: seq<string>, values: Cells, ghost ids: seq<SubmissionName>) returns (r: seq<SubmissionName>)
      requires |keys| == |ids| && forall j :: 0 <= j < |keys| ==> keys[j] in values && values[keys[j]] == RecipientCell(ids[j])
      ensures r == ids
    {
      r := [];
      for j := 0 to |keys|
        invariant |r| == j && forall i :: 0 <= i < j ==> r[i] == ids[i]
      {
        r := r + [values[keys[j]].id];
      }
    }

    method PutBatch(t: ThreadName, from: nat, chunk: seq<SubmissionName>)
      requires |chunk| <= BATCH
      modifies this`cells
      ensures Extended(old(cells), cells, t, from, chunk)
    {
      PutExtends(cells, t, from, chunk);
      Put(Entries(t, from, chunk));
    }

    method AppendRecipients(t: ThreadName, count: nat, added: seq<SubmissionName>)
      modifies this`cells
      ensures Extended(old(cells), cells, t, count, added)
    {
      var start := 0;
      while start < |added|
        invariant Extended(old(cells), cells, t, count, added[..Min(start, |added|)])
      {
        var end := Min(start + BATCH, |added|);
        ghost var before := cells;
        PutBatch(t, count + start, added[start..end]);
        ExtendTwice(old(cells), before, cells, t, count, added[..start], added[start..end]);
        assert added[..end] == added[..start] + added[start..end];
        start := start + BATCH;
      }
      assert added[..Min(start, |added|)] == added;
    }

    method DeleteRecipients(t: ThreadName, count: nat)
      modifies this`cells
      ensures forall a :: At(cells, a) == if InRange(a, t, 0, count) then None else At(old(cells), a)
    {
      var start := 0;
      while start < count
        invariant forall a :: At(cells, a) == if InRange(a, t, 0, Min(start, count)) then None else At(old(cells), a)
      {
        var keys := RecipientKeys(t, start, count);
        ghost var before := cells;
        Delete(keys);
        forall a ensures At(cells, a) == if InRange(a, t, start, start + |keys|) then None else At(before, a) {
          KeysInRange(t, start, count, a);
        }
        start := start + BATCH;
      }
    }

    method PutCell(a: Address, cell: Cell)
      modifies this`cells
      ensures forall b :: At(cells, b) == if b == a then Some(cell) else At(old(cells), b)
    {
      Put(map[Key(a) := cell]);
      forall b ensures At(cells, b) == if b == a then Some(cell) else At(old(cells), b) {
        if Key(b) == Key(a) { KeysDiffer(b, a); }
      }
    }

    method DeleteCell(a: Address)
      modifies this`cells
      ensures forall b :: At(cells, b) == if b == a then None else At(old(cells), b)
    {
      Delete([Key(a)]);
      forall b ensures At(cells, b) == if b == a then None else At(old(cells), b) {
        if Key(b) == Key(a) { KeysDiffer(b, a); }
      }
    }

    /** The previous fault of a Thread with its recipients. */
    method Previous(t: ThreadName, ghost s: State) returns (fault: Option<Fault>, ids: seq<SubmissionName>)
      requires Holds(s)
      ensures fault == PreviousFault(s.faults, t) && ids == RecipientsOf(s.faults, t)
    {
      fault, ids := None, [];
      var values := Get([Key(FaultAt(t))]);
      assert At(cells, FaultAt(t)) == Content(s, FaultAt(t));
      if Key(FaultAt(t)) in values {
        fault := Some(values[Key(FaultAt(t))].fault);
        ids := ReadRecipients(t, fault.value.recipientCount, s.faults[t].recipients);
      }
    }

    /** A fault with more recipients than before, or a first one. */
    method Retain(t: ThreadName, known: seq<SubmissionName>, added: seq<SubmissionName>, fault: Fault, ghost s: State)
      requires Holds(s) && known == RecipientsOf(s.faults, t) && fault.recipientCount == |known| + |added|
      modifies this`cells
      ensures Holds(s.(faults := s.faults[t := Blocked(fault, known + added)]))
    {
      AppendRecipients(t, |known|, added);
      ghost var extended := cells;
      PutCell(FaultAt(t), FaultCell(fault));
      ghost var u := s.(faults := s.faults[t := Blocked(fault, known + added)]);
      forall a ensures At(cells, a) == Content(u, a) {
        if a != FaultAt(t) { ExtensionHolds(s, u, old(cells), extended, t, added, a); }
      }
    }

    /** A fault and all its recipients, gone. */
    method Forget(t: ThreadName, count: nat, ghost s: State)
      requires Holds(s) && t in s.faults && count == s.faults[t].fault.recipientCount
      modifies this`cells
      ensures Holds(s.(faults := s.faults - {t}))
    {
      DeleteCell(FaultAt(t));
      DeleteRecipients(t, count);
      ghost var u := s.(faults := s.faults - {t});
      forall a ensures At(cells, a) == Content(u, a) {
        assert At(old(cells), a) == Content(s, a);
      }
    }

    method Judge(items: seq<Item>, now: int, v: Verdict, ghost s: State) returns (notices: seq<Notice>)
      requires Holds(s)
      modifies this`cells
      ensures Holds(s.(faults := Judged(s.faults, items, now, v)))
      ensures notices == NoticesOf(s.faults, items, now, v)
    {
      notices := [];
      var t := v.thread;
      var previous, known := Previous(t, s);
      if v.failure.None? {
        if previous.Some? {
          Forget(t, previous.value.recipientCount, s);
          notices := Notices(previous.value, t, known, ClearedFault, now);
        } else {
          assert s.faults - {t} == s.faults;
        }
      } else {
        var added := Added(items, t, Elements(known));
        var fault := Reblocked(previous, v.failure.value, |known| + |added|, now);
        Retain(t, known, added, fault, s);
        if previous.Some? && previous.value.failure != fault.failure {
          notices := Notices(fault, t, known, ChangedFault, now);
        }
        notices := notices + Notices(fault, t, added, CreatedFault, now);
      }
    }

    method AppendNotices(notices: seq<Notice>, ghost s: State)
      requires Holds(s)
      modifies this`cells, this`sequence, this`rows
      ensures Holds(Announced(s, notices))
    {
      if notices == [] {
        return;
      }
      var last := sequence;
      for i := 0 to |notices|
        modifies this`cells
        invariant last == sequence + i
        invariant Represents(cells, s.(log := s.log + notices[..i]))
      {
        ghost var before := cells;
        last := last + 1;
        PutCell(NoticeAt(last), NoticeCell(notices[i], last));
        forall a ensures At(cells, a) == Content(s.(log := s.log + notices[..i + 1]), a) {
          assert At(before, a) == Content(s.(log := s.log + notices[..i]), a);
        }
      }
      sequence := last;
      rows := DueQueue.Dirty(rows, DueQueue.RecoveryEvents, 0, true);
      assert notices[..|notices|] == notices;
      ghost var u := s.(log := s.log + notices);
      forall a ensures At(cells, a) == Content(Announced(s, notices), a) { assert At(cells, a) == Content(u, a); }
    }

    /** Recording a sweep: every Thread in turn, then all notices at once. */
    method Record(items: seq<Item>, now: int, verdicts: seq<Verdict>, ghost s: State)
      requires Holds(s)
      modifies this`cells, this`sequence, this`rows
      ensures Holds(Recorded(s, items, now, verdicts))
    {
      var notices: seq<Notice> := [];
      for i := 0 to |verdicts|
        invariant notices == NoticesOfAll(s.faults, items, now, verdicts[..i])
        invariant Holds(s.(faults := JudgedAll(s.faults, items, now, verdicts[..i])))
      {
        var more := Judge(items, now, verdicts[i], s.(faults := JudgedAll(s.faults, items, now, verdicts[..i])));
        assert verdicts[..i + 1][..i] == verdicts[..i];
        notices := notices + more;
      }
      assert verdicts[..|verdicts|] == verdicts;
      AppendNotices(notices, s.(faults := JudgedAll(s.faults, items, now, verdicts)));
    }

    /** Admissions during backoff. */
    method Admit(t: ThreadName, ids: seq<SubmissionName>, now: int, ghost s: State)
      requires Holds(s)
      modifies this`cells, this`sequence, this`rows
      ensures Holds(Admitted(s, t, ids, now))
    {
      var previous, known := Previous(t, s);
      if previous.None? { return; }
      var added := Fresh(ids, Elements(known));
      if added == [] { return; }
      var fault := previous.value.(recipientCount := |known| + |added|);
      Retain(t, known, added, fault, s);
      ghost var mid := s.(faults := s.faults[t := Blocked(fault, known + added)]);
      AppendNotices(Notices(fault, t, added, CreatedFault, now), mid);
    }

    /** The next notice to deliver, read back from its key. */
    method ReadNotice(n: nat, ghost s: State) returns (notice: Notice)
      requires Holds(s) && acknowledged < n <= sequence
      ensures notice == s.log[n - 1]
    {
      assert At(cells, NoticeAt(n)) == Content(s, NoticeAt(n));
      var values := Get([Key(NoticeAt(n))]);
      notice := values[Key(NoticeAt(n))].notice;
    }

    method Acknowledge(n: nat, now: int, ghost s: State)
      requires Holds(s) && n == acknowledged + 1 <= sequence
      modifies this`cells, this`acknowledged, this`rows
      ensures Holds(Acknowledged(s, n, now))
    {
      DeleteCell(NoticeAt(n));
      acknowledged := n;
      rows := DueQueue.Progress(rows, DueQueue.RecoveryEvents, now, n);
      if DueQueue.RecoveryEvents in rows {
        rows := DueQueue.Complete(rows, DueQueue.RecoveryEvents, rows[DueQueue.RecoveryEvents].revision,
                                  if sequence > n then Some(now) else None);
      }
      forall a ensures At(cells, a) == Content(Acknowledged(s, n, now), a) {
        assert At(old(cells), a) == Content(s, a);
      }
    }
  }

  /** Exactly the first `recipientCount` indices are stored, and the keys tell Threads apart. */
  lemma StoredRecipientsAreCounted(cells: Cells, s: State, t: ThreadName, i: nat)
    requires Represents(cells, s) && Counted(s.faults)
    ensures Key(RecipientAt(t, i)) in cells <==> t in s.faults && i < s.faults[t].fault.recipientCount
    ensures t in s.faults && Grammatical(s) ==>
              forall j: nat :: i < j && Key(RecipientAt(t, i)) in cells && Key(RecipientAt(t, j)) in cells ==>
                cells[Key(RecipientAt(t, i))] != cells[Key(RecipientAt(t, j))]
  {
    assert forall k: nat :: At(cells, RecipientAt(t, k)) == Content(s, RecipientAt(t, k));
    assert Grammatical(s) ==> Distinct(RecipientsOf(s.faults, t));
  }

  /** Exactly the notices after the acknowledged one are retained. */
  lemma RetainedNoticesAreUnacknowledged(cells: Cells, s: State, n: nat)
    requires Represents(cells, s)
    ensures Key(NoticeAt(n)) in cells <==> s.acknowledged < n <= |s.log|
  {
    assert At(cells, NoticeAt(n)) == Content(s, NoticeAt(n));
  }
}
