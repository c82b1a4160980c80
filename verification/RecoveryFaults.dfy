/**
 * Durable recovery faults (packages/platform-cloudflare/src/Alarm.ts, 416-536 and 1272-1463):
 * what is retained for a Thread whose recovery is blocked, which Submissions are its recipients,
 * and the events that tell them. The transactions are functions on an abstract state; the class
 * in `RecoveryStorage` runs them over the key-value storage.
 */
module RecoveryFaults {
  import opened Common
  import DueQueue

  type ThreadName = string
  type SubmissionName = string

  datatype Transition = CreatedFault | ChangedFault | ClearedFault

  datatype Fault = Fault(
    firstFailedAt: int,
    lastFailedAt: int,
    retryAt: int,
    attempts: nat,
    failure: string,
    recipientCount: nat)

  datatype Notice = Notice(
    transition: Transition,
    thread: ThreadName,
    submission: SubmissionName,
    occurredAt: int,
    firstFailedAt: int,
    failure: string)

  datatype Blocked = Blocked(fault: Fault, recipients: seq<SubmissionName>)

  type Faults = map<ThreadName, Blocked>

  /**
   * `log` is every notice ever appended; those up to `acknowledged` are no longer stored. `rows`
   * is the queue of due lanes, of which the delivery of notices is one.
   */
  datatype State = State(faults: Faults, log: seq<Notice>, acknowledged: nat, rows: DueQueue.Table)

  const INITIAL := State(map[], [], 0, map[])

  /** What one sweep found out about a Thread: recovered, or blocked by a failure. */
  datatype Verdict = Verdict(thread: ThreadName, failure: Option<string>)

  datatype Item = Item(thread: ThreadName, submission: SubmissionName)

  const MAX_ATTEMPTS := 2_147_483_647

  function RecipientsOf(faults: Faults, t: ThreadName): seq<SubmissionName> {
    if t in faults then faults[t].recipients else []
  }

  predicate Distinct<T(==)>(xs: seq<T>) {
    forall i, j :: 0 <= i < j < |xs| ==> xs[i] != xs[j]
  }

  /** The Submissions of a Thread that are not recipients yet, in ledger order. */
  function Added(items: seq<Item>, t: ThreadName, known: set<SubmissionName>): seq<SubmissionName> {
    if items == [] then []
    else if items[0].thread == t && items[0].submission !in known
    then [items[0].submission] + Added(items[1..], t, known)
    else Added(items[1..], t, known)
  }

  function Fresh(ids: seq<SubmissionName>, known: set<SubmissionName>): seq<SubmissionName> {
    if ids == [] then []
    else if ids[0] !in known then [ids[0]] + Fresh(ids[1..], known)
    else Fresh(ids[1..], known)
  }

  function Notices(f: Fault, t: ThreadName, ids: seq<SubmissionName>, transition: Transition, now: int): (r: seq<Notice>)
    ensures |r| == |ids|
  {
    seq(|ids|, i requires 0 <= i < |ids| => Notice(transition, t, ids[i], now, f.firstFailedAt, f.failure))
  }

  function Elements(ids: seq<SubmissionName>): set<SubmissionName> {
    set id | id in ids
  }

  function RetryDelay(attempts: nat): nat {
    Min(60_000, 5_000 * Pow2(Min(30, attempts)))
  }

  /** The fault after one more blocked sweep. */
  function Reblocked(previous: Option<Fault>, failure: string, recipients: nat, now: int): Fault {
    var attempts := if previous.Some? then previous.value.attempts else 0;
    Fault(
      if previous.Some? then previous.value.firstFailedAt else now,
      now,
      now + RetryDelay(attempts),
      Min(MAX_ATTEMPTS, attempts + 1),
      failure,
      recipients)
  }

  function PreviousFault(faults: Faults, t: ThreadName): Option<Fault> {
    if t in faults then Some(faults[t].fault) else None
  }

  function AddedFor(faults: Faults, items: seq<Item>, t: ThreadName): seq<SubmissionName> {
    Added(items, t, Elements(RecipientsOf(faults, t)))
  }

  /** One Thread of a sweep: its faults afterwards. */
  function Judged(faults: Faults, items: seq<Item>, now: int, v: Verdict): Faults {
    if v.failure.None? then faults - {v.thread}
    else
      var known := RecipientsOf(faults, v.thread);
      var added := AddedFor(faults, items, v.thread);
      faults[v.thread := Blocked(Reblocked(PreviousFault(faults, v.thread), v.failure.value, |known| + |added|, now), known + added)]
  }

  /** One Thread of a sweep: whom it tells what. */
  function NoticesOf(faults: Faults, items: seq<Item>, now: int, v: Verdict): seq<Notice> {
    var known := RecipientsOf(faults, v.thread);
    if v.failure.None? then
      if v.thread in faults then Notices(faults[v.thread].fault, v.thread, known, ClearedFault, now) else []
    else
      var fault := Judged(faults, items, now, v)[v.thread].fault;
      (if v.thread in faults && faults[v.thread].fault.failure != fault.failure
       then Notices(fault, v.thread, known, ChangedFault, now) else [])
      + Notices(fault, v.thread, AddedFor(faults, items, v.thread), CreatedFault, now)
  }

  function JudgedAll(faults: Faults, items: seq<Item>, now: int, verdicts: seq<Verdict>): Faults {
    if verdicts == [] then faults
    else Judged(JudgedAll(faults, items, now, verdicts[..|verdicts| - 1]), items, now, verdicts[|verdicts| - 1])
  }

  function NoticesOfAll(faults: Faults, items: seq<Item>, now: int, verdicts: seq<Verdict>): seq<Notice> {
    if verdicts == [] then []
    else
      NoticesOfAll(faults, items, now, verdicts[..|verdicts| - 1])
      + NoticesOf(JudgedAll(faults, items, now, verdicts[..|verdicts| - 1]), items, now, verdicts[|verdicts| - 1])
  }

  /** Appending notices enrols their delivery at once, as progress. */
  function Announced(s: State, notices: seq<Notice>): State {
    if notices == [] then s
    else s.(log := s.log + notices, rows := DueQueue.Dirty(s.rows, DueQueue.RecoveryEvents, 0, true))
  }

  /** Acknowledging one notice: its delivery lane stays due exactly while others are retained. */
  function Acknowledged(s: State, n: nat, now: int): State {
    var rows := DueQueue.Progress(s.rows, DueQueue.RecoveryEvents, now, n);
    s.(acknowledged := n,
       rows := if DueQueue.RecoveryEvents in rows
               then DueQueue.Complete(rows, DueQueue.RecoveryEvents, rows[DueQueue.RecoveryEvents].revision,
                                      if |s.log| > n then Some(now) else None)
               else rows)
  }

  /** Recording a sweep, in one transaction. */
  function Recorded(s: State, items: seq<Item>, now: int, verdicts: seq<Verdict>): State {
    Announced(s.(faults := JudgedAll(s.faults, items, now, verdicts)), NoticesOfAll(s.faults, items, now, verdicts))
  }

  /** Admissions during backoff become recipients without accelerating recovery. */
  function Admitted(s: State, t: ThreadName, ids: seq<SubmissionName>, now: int): State {
    if t !in s.faults then s
    else
      var known := s.faults[t].recipients;
      var added := Fresh(ids, Elements(known));
      if added == [] then s
      else
        var fault := s.faults[t].fault.(recipientCount := |known| + |added|);
        Announced(s.(faults := s.faults[t := Blocked(fault, known + added)]), Notices(fault, t, added, CreatedFault, now))
  }

  // ------------------------------------------------------------------ the grammar

  /** What one Submission is told about one Thread, in order. */
  function Word(log: seq<Notice>, t: ThreadName, id: SubmissionName): seq<Transition> {
    if log == [] then []
    else
      var last := log[|log| - 1];
      Word(log[..|log| - 1], t, id) + (if last.thread == t && last.submission == id then [last.transition] else [])
  }

  /** created changed* */
  predicate Opened(w: seq<Transition>) {
    w != [] && w[0] == CreatedFault && forall i :: 1 <= i < |w| ==> w[i] == ChangedFault
  }

  /** created changed* cleared */
  predicate Episode(w: seq<Transition>) {
    |w| >= 2 && Opened(w[..|w| - 1]) && w[|w| - 1] == ClearedFault
  }

  /** (created changed* cleared)* */
  ghost predicate Episodes(w: seq<Transition>) {
    w == [] || exists k :: 0 <= k < |w| && Episodes(w[..k]) && Episode(w[k..])
  }

  /** Whole episodes, then one that has not been cleared. */
  ghost predicate Unfinished(w: seq<Transition>) {
    exists k :: 0 <= k < |w| && Episodes(w[..k]) && Opened(w[k..])
  }

  ghost predicate Placed(s: State, t: ThreadName, id: SubmissionName) {
    if id in RecipientsOf(s.faults, t) then Unfinished(Word(s.log, t, id)) else Episodes(Word(s.log, t, id))
  }

  /** A recipient is inside an episode; anyone else has only whole episodes behind them. */
  ghost predicate Grammatical(s: State) {
    && (forall t :: Distinct(RecipientsOf(s.faults, t)))
    && (forall t, id :: Placed(s, t, id))
  }

  lemma CreateOpens(w: seq<Transition>)
    requires Episodes(w)
    ensures Unfinished(w + [CreatedFault])
  {
    var u := w + [CreatedFault];
    assert u[..|u| - 1] == w && u[|u| - 1..] == [CreatedFault];
  }

  lemma ChangeKeepsOpen(w: seq<Transition>)
    requires Unfinished(w)
    ensures Unfinished(w + [ChangedFault])
  {
    var k :| 0 <= k < |w| && Episodes(w[..k]) && Opened(w[k..]);
    var u := w + [ChangedFault];
    assert u[..k] == w[..k];
    assert u[k..] == w[k..] + [ChangedFault];
  }

  lemma ClearCloses(w: seq<Transition>)
    requires Unfinished(w)
    ensures Episodes(w + [ClearedFault])
  {
    var k :| 0 <= k < |w| && Episodes(w[..k]) && Opened(w[k..]);
    var u := w + [ClearedFault];
    assert u[..k] == w[..k];
    var e := u[k..];
    assert e == w[k..] + [ClearedFault];
    assert e[..|e| - 1] == w[k..];
  }

  // ------------------------------------------------------------------ what a batch of notices adds

  function Told(t: ThreadName, ids: seq<SubmissionName>, transition: Transition, u: ThreadName, id: SubmissionName): seq<Transition> {
    if u == t && id in ids then [transition] else []
  }

  lemma {:induction false} WordOfNotices(log: seq<Notice>, f: Fault, t: ThreadName, ids: seq<SubmissionName>, transition: Transition, now: int,
                                         u: ThreadName, id: SubmissionName)
    requires Distinct(ids)
    ensures Word(log + Notices(f, t, ids, transition, now), u, id) == Word(log, u, id) + Told(t, ids, transition, u, id)
  {
    if ids == [] {
      assert log + Notices(f, t, ids, transition, now) == log;
    } else {
      var rest, last := ids[..|ids| - 1], ids[|ids| - 1];
      var notice := Notice(transition, t, last, now, f.firstFailedAt, f.failure);
      assert log + Notices(f, t, ids, transition, now) == log + Notices(f, t, rest, transition, now) + [notice];
      WordOfNotices(log, f, t, rest, transition, now, u, id);
      WordOfOneMore(log + Notices(f, t, rest, transition, now), notice, u, id);
      assert ids == rest + [last];
    }
  }

  lemma WordOfOneMore(log: seq<Notice>, n: Notice, u: ThreadName, id: SubmissionName)
    ensures Word(log + [n], u, id) == Word(log, u, id) + (if n.thread == u && n.submission == id then [n.transition] else [])
  {
    assert (log + [n])[..|log|] == log;
  }

  lemma {:induction false} AddedIsFresh(items: seq<Item>, t: ThreadName, known: set<SubmissionName>)
    requires Distinct(items)
    ensures Distinct(Added(items, t, known))
    ensures forall id :: id in Added(items, t, known) <==> id !in known && Item(t, id) in items
  {
    if items != [] {
      AddedIsFresh(items[1..], t, known);
      assert forall i :: i in items <==> i == items[0] || i in items[1..];
    }
  }

  lemma {:induction false} FreshIsFresh(ids: seq<SubmissionName>, known: set<SubmissionName>)
    requires Distinct(ids)
    ensures Distinct(Fresh(ids, known))
    ensures forall id :: id in Fresh(ids, known) <==> id !in known && id in ids
  {
    if ids != [] {
      FreshIsFresh(ids[1..], known);
      assert forall i :: i in ids <==> i == ids[0] || i in ids[1..];
    }
  }

  /** Each notice moves its recipient along the grammar. */
  lemma NoticeKeepsPlace(s: State, u: State, g: Fault, t: ThreadName, ids: seq<SubmissionName>, transition: Transition, now: int,
                         v: ThreadName, id: SubmissionName)
    requires Placed(s, v, id) && Distinct(ids)
    requires u.log == s.log + Notices(g, t, ids, transition, now)
    requires var was, remains := id in RecipientsOf(s.faults, v), id in RecipientsOf(u.faults, v);
             if v == t && id in ids then (was <==> !transition.CreatedFault?) && (remains <==> !transition.ClearedFault?)
             else was == remains
    ensures Placed(u, v, id)
  {
    WordOfNotices(s.log, g, t, ids, transition, now, v, id);
    var w := Word(s.log, v, id);
    if v == t && id in ids {
      match transition {
        case CreatedFault => CreateOpens(w);
        case ChangedFault => ChangeKeepsOpen(w);
        case ClearedFault => ClearCloses(w);
      }
    } else {
      assert w + [] == w;
    }
  }

  lemma DistinctAppend(a: seq<SubmissionName>, b: seq<SubmissionName>)
    requires Distinct(a) && Distinct(b) && forall x :: x in b ==> x !in a
    ensures Distinct(a + b)
  {
    forall i, j | 0 <= i < j < |a + b| ensures (a + b)[i] != (a + b)[j] {
      assert j >= |a| ==> (a + b)[j] in b;
      assert i < |a| ==> (a + b)[i] in a;
    }
  }

  /** Telling new recipients that the fault exists. */
  lemma CreatingKeepsGrammar(s: State, f: Fault, g: Fault, t: ThreadName, added: seq<SubmissionName>, now: int)
    requires Grammatical(s) && Distinct(added)
    requires forall id :: id in added ==> id !in RecipientsOf(s.faults, t)
    ensures Grammatical(s.(faults := s.faults[t := Blocked(f, RecipientsOf(s.faults, t) + added)],
                           log := s.log + Notices(g, t, added, CreatedFault, now)))
  {
    var known := RecipientsOf(s.faults, t);
    var u := s.(faults := s.faults[t := Blocked(f, known + added)], log := s.log + Notices(g, t, added, CreatedFault, now));
    assert RecipientsOf(u.faults, t) == known + added;
    assert forall v :: v != t ==> RecipientsOf(u.faults, v) == RecipientsOf(s.faults, v);
    DistinctAppend(known, added);
    forall v, id ensures Placed(u, v, id) {
      assert Placed(s, v, id);
      NoticeKeepsPlace(s, u, g, t, added, CreatedFault, now, v, id);
    }
  }

  lemma ChangingKeepsGrammar(s: State, g: Fault, t: ThreadName, now: int)
    requires Grammatical(s)
    ensures Grammatical(s.(log := s.log + Notices(g, t, RecipientsOf(s.faults, t), ChangedFault, now)))
  {
    var known := RecipientsOf(s.faults, t);
    var u := s.(log := s.log + Notices(g, t, known, ChangedFault, now));
    forall v, id ensures Placed(u, v, id) {
      assert Placed(s, v, id);
      NoticeKeepsPlace(s, u, g, t, known, ChangedFault, now, v, id);
    }
  }

  lemma ClearingKeepsGrammar(s: State, g: Fault, t: ThreadName, now: int)
    requires Grammatical(s)
    ensures Grammatical(s.(faults := s.faults - {t}, log := s.log + Notices(g, t, RecipientsOf(s.faults, t), ClearedFault, now)))
  {
    var known := RecipientsOf(s.faults, t);
    var u := s.(faults := s.faults - {t}, log := s.log + Notices(g, t, known, ClearedFault, now));
    assert RecipientsOf(u.faults, t) == [];
    assert forall v :: v != t ==> RecipientsOf(u.faults, v) == RecipientsOf(s.faults, v);
    forall v, id ensures Placed(u, v, id) {
      assert Placed(s, v, id);
      NoticeKeepsPlace(s, u, g, t, known, ClearedFault, now, v, id);
    }
  }

  lemma JudgingKeepsGrammar(s: State, items: seq<Item>, now: int, v: Verdict)
    requires Grammatical(s) && Distinct(items)
    ensures Grammatical(s.(faults := Judged(s.faults, items, now, v), log := s.log + NoticesOf(s.faults, items, now, v)))
  {
    var t := v.thread;
    if v.failure.None? {
      if t in s.faults {
        ClearingKeepsGrammar(s, s.faults[t].fault, t, now);
      } else {
        assert s.faults - {t} == s.faults && s.log + [] == s.log;
      }
    } else {
      var known := RecipientsOf(s.faults, t);
      var added := AddedFor(s.faults, items, t);
      AddedIsFresh(items, t, Elements(known));
      var fault := Judged(s.faults, items, now, v)[t].fault;
      if t in s.faults && s.faults[t].fault.failure != fault.failure {
        ChangingKeepsGrammar(s, fault, t, now);
        var changed := s.(log := s.log + Notices(fault, t, known, ChangedFault, now));
        CreatingKeepsGrammar(changed, fault, fault, t, added, now);
        assert changed.log + Notices(fault, t, added, CreatedFault, now) == s.log + NoticesOf(s.faults, items, now, v);
      } else {
        CreatingKeepsGrammar(s, fault, fault, t, added, now);
        assert NoticesOf(s.faults, items, now, v) == Notices(fault, t, added, CreatedFault, now);
      }
    }
  }

  /** A whole sweep keeps the grammar, whatever Threads it judges and in whatever order. */
  lemma {:induction false} RecordingKeepsGrammar(s: State, items: seq<Item>, now: int, verdicts: seq<Verdict>)
    requires Grammatical(s) && Distinct(items)
    ensures Grammatical(Recorded(s, items, now, verdicts))
    decreases |verdicts|
  {
    if verdicts != [] {
      var rest := verdicts[..|verdicts| - 1];
      RecordingKeepsGrammar(s, items, now, rest);
      JudgedAfter(s, items, now, Recorded(s, items, now, rest), verdicts);
    }
  }

  /** One more verdict on what all earlier ones left. */
  lemma JudgedAfter(s: State, items: seq<Item>, now: int, mid: State, verdicts: seq<Verdict>)
    requires verdicts != [] && Distinct(items) && mid == Recorded(s, items, now, verdicts[..|verdicts| - 1]) && Grammatical(mid)
    ensures Grammatical(Recorded(s, items, now, verdicts))
  {
    var last := verdicts[|verdicts| - 1];
    var told := mid.(faults := Judged(mid.faults, items, now, last), log := mid.log + NoticesOf(mid.faults, items, now, last));
    JudgingKeepsGrammar(mid, items, now, last);
    RecordedSplits(s, items, now, verdicts);
    GrammarIsOfTheLog(told, Recorded(s, items, now, verdicts));
  }

  lemma RecordedSplits(s: State, items: seq<Item>, now: int, verdicts: seq<Verdict>)
    requires verdicts != []
    ensures var last := verdicts[|verdicts| - 1];
            var mid := Recorded(s, items, now, verdicts[..|verdicts| - 1]);
            && Recorded(s, items, now, verdicts).faults == Judged(mid.faults, items, now, last)
            && Recorded(s, items, now, verdicts).log == mid.log + NoticesOf(mid.faults, items, now, last)
  {
    var rest := verdicts[..|verdicts| - 1];
    var before := NoticesOfAll(s.faults, items, now, rest);
    var more := NoticesOf(JudgedAll(s.faults, items, now, rest), items, now, verdicts[|verdicts| - 1]);
    AnnouncingAppends(s.(faults := JudgedAll(s.faults, items, now, rest)), before);
    AnnouncingAppends(s.(faults := JudgedAll(s.faults, items, now, verdicts)), before + more);
    assert s.log + before + more == s.log + (before + more);
  }

  lemma AnnouncingAppends(s: State, notices: seq<Notice>)
    ensures Announced(s, notices).log == s.log + notices && Announced(s, notices).faults == s.faults
  {
    assert s.log + [] == s.log;
  }

  lemma GrammarIsOfTheLog(s: State, u: State)
    requires Grammatical(s) && u.faults == s.faults && u.log == s.log
    ensures Grammatical(u)
  {
    forall t, id ensures Placed(u, t, id) { assert Placed(s, t, id); }
    forall t ensures Distinct(RecipientsOf(u.faults, t)) { assert Distinct(RecipientsOf(s.faults, t)); }
  }

  lemma AdmittingKeepsGrammar(s: State, t: ThreadName, ids: seq<SubmissionName>, now: int)
    requires Grammatical(s) && Distinct(ids)
    ensures Grammatical(Admitted(s, t, ids, now))
  {
    if t in s.faults {
      var known := s.faults[t].recipients;
      var added := Fresh(ids, Elements(known));
      FreshIsFresh(ids, Elements(known));
      var fault := s.faults[t].fault.(recipientCount := |known| + |added|);
      CreatingKeepsGrammar(s, fault, fault, t, added, now);
      if added != [] {
        GrammarIsOfTheLog(s.(faults := s.faults[t := Blocked(fault, known + added)], log := s.log + Notices(fault, t, added, CreatedFault, now)),
                          Admitted(s, t, ids, now));
      }
    }
  }

  /** A count stored with a fault is the number of its recipients. */
  predicate Counted(faults: Faults) {
    forall t :: t in faults ==> faults[t].fault.recipientCount == |faults[t].recipients|
  }

  lemma {:induction false} RecordingKeepsCounts(faults: Faults, items: seq<Item>, now: int, verdicts: seq<Verdict>)
    requires Counted(faults)
    ensures Counted(JudgedAll(faults, items, now, verdicts))
    decreases |verdicts|
  {
    if verdicts != [] { RecordingKeepsCounts(faults, items, now, verdicts[..|verdicts| - 1]); }
  }

  /**
   * A blocked sweep counts up to the maximum, keeps the first failure's time, keeps every
   * recipient, and puts the next automatic retry between 5 s and 60 s away.
   */
  lemma BlockedSweepExtendsTheFault(faults: Faults, items: seq<Item>, now: int, v: Verdict)
    requires v.failure.Some? && Distinct(items)
    ensures v.thread in Judged(faults, items, now, v)
    ensures var b := Judged(faults, items, now, v)[v.thread];
            && RecipientsOf(faults, v.thread) <= b.recipients
            && (forall i :: i in items && i.thread == v.thread ==> i.submission in b.recipients)
            && b.fault.recipientCount == |b.recipients| && b.fault.lastFailedAt == now && Some(b.fault.failure) == v.failure
            && 1 <= b.fault.attempts <= MAX_ATTEMPTS
            && now + 5_000 <= b.fault.retryAt <= now + 60_000
            && (v.thread in faults ==> b.fault.firstFailedAt == faults[v.thread].fault.firstFailedAt)
            && (v.thread !in faults ==> b.fault.attempts == 1 && b.fault.retryAt == now + 5_000)
  {
    AddedIsFresh(items, v.thread, Elements(RecipientsOf(faults, v.thread)));
    var b := Judged(faults, items, now, v)[v.thread];
    forall i | i in items && i.thread == v.thread ensures i.submission in b.recipients {
      assert Item(v.thread, i.submission) in items;
    }
    assert Pow2(0) == 1;
    assert forall n: nat :: Pow2(n) >= 1;
  }
}
