/**
 * Recovery notices over whole runs (packages/platform-cloudflare/src/Alarm.ts, 1183-1354): sweeps,
 * admissions and the delivery lane, interleaved transaction by transaction. A rolled-back
 * transaction, a failed publication, a failed event or a crash can fall between any two of them.
 */
module RecoveryRuns {
  import opened Common
  import opened RecoveryFaults
  import DueQueue
  import Maintenance

  const LANE := DueQueue.RecoveryEvents

  /**
   * One wave of the delivery lane: charged under a revision, then running without a transaction
   * while the host is told, then settling its row with a next deadline or none. A lane whose wave
   * failed is exhausted until the next event.
   */
  datatype Wave =
    | NoEvent
    | Idle
    | Charged(revision: nat)
    | At(revision: nat, next: nat, through: nat)
    | Holding(revision: nat, next: nat, through: nat, notice: Notice, sent: bool)
    | Settling(revision: nat, due: Option<int>, failed: bool)
    | Exhausted

  datatype Published = Published(sequence: nat, notice: Notice)

  /**
   * `flagged` is the volatile note that notices are pending. `published` is a history variable:
   * every notice the host was ever handed.
   */
  datatype World = World(state: State, flagged: bool, wave: Wave, published: seq<Published>)

  datatype Step =
    | Sweep(items: seq<Item>, now: int, verdicts: seq<Verdict>)
    | Admission(thread: ThreadName, ids: seq<SubmissionName>, now: int)
    | AppendRollsBack
    | BeginEvent
    | BeginPass
    | Charge(revision: nat, now: int)
    | Range
    | Read
    | Publish
    | Acknowledge(now: int)
    | AcknowledgeRollsBack(flagging: bool, retry: int)
    | Finish
    | WaveFails(retry: int)
    | Settle(producing: bool)
    | Interrupt
    | FailEvent(c: Maintenance.Config, now: int, jitter: real, o: Maintenance.Observation)
    | EndEvent
    | Crash

  const START := World(INITIAL, false, NoEvent, [])

  predicate Pending(s: State) {
    s.acknowledged < |s.log|
  }

  predicate Running(v: Wave) {
    v.Charged? || v.At? || v.Holding?
  }

  predicate Enabled(w: World, s: Step) {
    match s
    case Sweep(items, _, _) => Distinct(items)
    case Admission(_, ids, _) => Distinct(ids)
    case AppendRollsBack => true
    case BeginEvent => w.wave.NoEvent?
    case BeginPass => !w.wave.NoEvent?
    case Charge(revision, now) => w.wave.Idle? && DueQueue.Claimable(w.state.rows, LANE, revision, now, false)
    case Range => w.wave.Charged?
    case Read => w.wave.At? && w.wave.next <= w.wave.through && w.state.acknowledged < w.wave.next <= |w.state.log|
    case Publish => w.wave.Holding?
    case Acknowledge(_) => w.wave.Holding? && w.wave.sent
    case AcknowledgeRollsBack(_, _) => w.wave.Holding? && w.wave.sent
    case Finish => w.wave.At? && w.wave.next > w.wave.through
    case WaveFails(_) => Running(w.wave)
    case Settle(_) => w.wave.Settling?
    case Interrupt => Running(w.wave) || w.wave.Settling?
    case FailEvent(_, _, _, _) => !w.wave.NoEvent?
    case EndEvent => w.wave.Idle? || w.wave.Exhausted?
    case Crash => true
  }

  /** An append flags its notices before it commits. */
  function Flagged(w: World, s: State): World {
    w.(state := s, flagged := w.flagged || |s.log| > |w.state.log|)
  }

  function Apply(w: World, s: Step): World
    requires Enabled(w, s)
  {
    match s
    case Sweep(items, now, verdicts) => Flagged(w, Recorded(w.state, items, now, verdicts))
    case Admission(t, ids, now) => Flagged(w, Admitted(w.state, t, ids, now))
    case AppendRollsBack => w.(flagged := true)
    case BeginEvent => w.(flagged := Pending(w.state), wave := Idle)
    case BeginPass => w.(flagged := Pending(w.state))
    case Charge(revision, now) =>
      w.(state := w.state.(rows := DueQueue.Claim(w.state.rows, LANE, revision, now, false)), wave := Charged(revision))
    case Range =>
      w.(wave := if w.flagged then At(w.wave.revision, w.state.acknowledged + 1, |w.state.log|)
                 else Settling(w.wave.revision, None, false))
    case Read =>
      w.(wave := Holding(w.wave.revision, w.wave.next, w.wave.through, w.state.log[w.wave.next - 1], false))
    case Publish =>
      w.(wave := w.wave.(sent := true), published := w.published + [Published(w.wave.next, w.wave.notice)])
    case Acknowledge(now) =>
      var u := Acknowledged(w.state, w.wave.next, now);
      w.(state := u, flagged := Pending(u), wave := At(w.wave.revision, w.wave.next + 1, w.wave.through))
    case AcknowledgeRollsBack(flagging, retry) =>
      // The note may already have been taken from the record that then rolls back.
      w.(flagged := if flagging then |w.state.log| > w.wave.next else w.flagged, wave := Settling(w.wave.revision, Some(retry), true))
    case Finish => w.(wave := Settling(w.wave.revision, if w.flagged then Some(0) else None, false))
    case WaveFails(retry) => w.(wave := Settling(w.wave.revision, Some(retry), true))
    case Settle(producing) =>
      w.(state := if producing then w.state
                  else w.state.(rows := DueQueue.Complete(w.state.rows, LANE, w.wave.revision, w.wave.due)),
         wave := if w.wave.failed then Exhausted else Idle)
    case Interrupt => w.(wave := Exhausted)
    case FailEvent(c, now, jitter, o) =>
      w.(state := w.state.(rows := Maintenance.RearmRows(w.state.rows, c, now, jitter, o)), wave := NoEvent)
    case EndEvent => w.(wave := NoEvent)
    case Crash => w.(flagged := false, wave := NoEvent)
  }

  predicate Executable(w: World, steps: seq<Step>)
    decreases steps
  {
    steps == [] || (Enabled(w, steps[0]) && Executable(Apply(w, steps[0]), steps[1..]))
  }

  function Execute(w: World, steps: seq<Step>): World
    requires Executable(w, steps)
    decreases steps
  {
    if steps == [] then w else Execute(Apply(w, steps[0]), steps[1..])
  }

  // ------------------------------------------------------------------ the invariant

  function Frontier(published: seq<Published>): nat {
    if published == [] then 0 else published[|published| - 1].sequence
  }

  /** Deliveries start at 1, never go back, never skip, and always carry the logged notice. */
  predicate Orderly(published: seq<Published>, log: seq<Notice>) {
    && (forall i :: 0 <= i < |published| ==> 1 <= published[i].sequence <= |log| && published[i].notice == log[published[i].sequence - 1])
    && (published != [] ==> published[0].sequence == 1)
    && (forall i :: 0 < i < |published| ==> published[i - 1].sequence <= published[i].sequence <= published[i - 1].sequence + 1)
  }

  ghost predicate Inv(w: World) {
    && Grammatical(w.state)
    && Counted(w.state.faults)
    && DeliveryInv(w)
  }

  /** What has been handed out, and how far the wave under way has come. */
  ghost predicate DeliveryInv(w: World) {
    && w.state.acknowledged <= |w.state.log|
    && Orderly(w.published, w.state.log)
    && w.state.acknowledged <= Frontier(w.published) <= w.state.acknowledged + 1
    && match w.wave
       case At(_, next, through) => next == w.state.acknowledged + 1 && through <= |w.state.log|
       case Holding(_, next, through, notice, sent) =>
         && next == w.state.acknowledged + 1 <= through <= |w.state.log|
         && notice == w.state.log[next - 1]
         && (sent ==> Frontier(w.published) == next)
       case _ => true
  }

  /** The deadline of the lane, and what keeps it while a wave is under way. */
  ghost predicate LaneInv(w: World) {
    && (Pending(w.state) ==> DueQueue.IsDue(w.state.rows, LANE))
    && (w.wave.Idle? || Running(w.wave) || (w.wave.Settling? && !w.wave.failed) ==> (Pending(w.state) ==> w.flagged))
    && (Running(w.wave) || w.wave.Settling? ==> LANE in w.state.rows && w.wave.revision <= w.state.rows[LANE].revision)
    && (w.wave.Settling? && w.wave.due.None? && Pending(w.state) ==> w.wave.revision < w.state.rows[LANE].revision)
  }

  lemma OrderlyAppend(published: seq<Published>, log: seq<Notice>, n: nat)
    requires Orderly(published, log) && 1 <= n <= |log|
    requires Frontier(published) <= n <= Frontier(published) + 1
    ensures Orderly(published + [Published(n, log[n - 1])], log)
  {
    var p := published + [Published(n, log[n - 1])];
    forall i | 0 < i < |p| ensures p[i - 1].sequence <= p[i].sequence <= p[i - 1].sequence + 1 {
      assert i < |published| ==> published[i - 1].sequence <= published[i].sequence <= published[i - 1].sequence + 1;
    }
  }

  lemma LoggingKeepsInv(w: World, s: Step)
    requires Inv(w) && Enabled(w, s) && (s.Sweep? || s.Admission?)
    ensures Inv(Apply(w, s))
  {
    var u := Apply(w, s);
    if s.Sweep? {
      RecordingKeepsGrammar(w.state, s.items, s.now, s.verdicts);
      RecordingKeepsCounts(w.state.faults, s.items, s.now, s.verdicts);
    } else {
      AdmittingKeepsGrammar(w.state, s.thread, s.ids, s.now);
    }
    LoggingKeepsDelivery(w, u);
  }

  lemma LoggingKeepsDelivery(w: World, u: World)
    requires DeliveryInv(w) && u.wave == w.wave && u.published == w.published
    requires w.state.log <= u.state.log && u.state.acknowledged == w.state.acknowledged
    ensures DeliveryInv(u)
  {
  }

  lemma PublishKeepsDelivery(w: World)
    requires DeliveryInv(w) && w.wave.Holding?
    ensures DeliveryInv(Apply(w, Publish))
  {
    OrderlyAppend(w.published, w.state.log, w.wave.next);
  }

  /** The steps of the lane neither judge nor append. */
  lemma DeliveryShape(w: World, s: Step)
    requires Enabled(w, s) && !s.Sweep? && !s.Admission?
    ensures Apply(w, s).state.faults == w.state.faults && Apply(w, s).state.log == w.state.log
    ensures !s.Publish? ==> Apply(w, s).published == w.published
  {
  }

  lemma DeliveryKeepsDelivery(w: World, s: Step)
    requires DeliveryInv(w) && Enabled(w, s) && !s.Sweep? && !s.Admission?
    ensures DeliveryInv(Apply(w, s))
  {
    DeliveryShape(w, s);
    if s.Publish? { PublishKeepsDelivery(w); }
  }

  lemma DeliveryKeepsInv(w: World, s: Step)
    requires Inv(w) && Enabled(w, s) && !s.Sweep? && !s.Admission?
    ensures Inv(Apply(w, s))
  {
    DeliveryKeepsDelivery(w, s);
    DeliveryShape(w, s);
    GrammarIsOfTheLog(w.state, Apply(w, s).state);
  }

  lemma StepKeepsInv(w: World, s: Step)
    requires Inv(w) && Enabled(w, s)
    ensures Inv(Apply(w, s))
  {
    if s.Sweep? || s.Admission? {
      LoggingKeepsInv(w, s);
    } else {
      DeliveryKeepsInv(w, s);
    }
  }

  lemma LoggingKeepsLane(w: World, s: Step)
    requires LaneInv(w) && w.state.acknowledged <= |w.state.log| && Enabled(w, s) && (s.Sweep? || s.Admission?)
    ensures LaneInv(Apply(w, s))
  {
    var u := Apply(w, s);
    assert u.state.acknowledged == w.state.acknowledged;
    assert (u.state.rows == w.state.rows && |u.state.log| == |w.state.log|)
           || (|u.state.log| > |w.state.log| && u.state.rows == DueQueue.Dirty(w.state.rows, LANE, 0, true));
  }

  lemma DeliveryKeepsLane(w: World, s: Step)
    requires LaneInv(w) && Inv(w) && Enabled(w, s) && !s.Sweep? && !s.Admission?
    ensures LaneInv(Apply(w, s))
  {
  }

  lemma StepKeepsLane(w: World, s: Step)
    requires LaneInv(w) && Inv(w) && Enabled(w, s)
    ensures LaneInv(Apply(w, s))
  {
    if s.Sweep? || s.Admission? {
      LoggingKeepsLane(w, s);
    } else {
      DeliveryKeepsLane(w, s);
    }
  }

  lemma {:induction false} RunKeepsInv(w: World, steps: seq<Step>)
    requires Inv(w) && LaneInv(w) && Executable(w, steps)
    ensures Inv(Execute(w, steps)) && LaneInv(Execute(w, steps))
    decreases steps
  {
    if steps != [] {
      StepKeepsInv(w, steps[0]);
      StepKeepsLane(w, steps[0]);
      RunKeepsInv(Apply(w, steps[0]), steps[1..]);
    }
  }

  lemma StartHolds()
    ensures Inv(START) && LaneInv(START)
  {
    forall t, id ensures Placed(INITIAL, t, id) {
      assert Word([], t, id) == [];
    }
  }

  // ------------------------------------------------------------------ what every run keeps

  /**
   * For every Thread and Submission the appended notices read (created changed* cleared)*, with
   * one more episode still open exactly while the Submission is a recipient.
   */
  lemma NoticesFollowTheGrammar(steps: seq<Step>, t: ThreadName, id: SubmissionName)
    requires Executable(START, steps)
    ensures var s := Execute(START, steps).state;
            if id in RecipientsOf(s.faults, t) then Unfinished(Word(s.log, t, id)) else Episodes(Word(s.log, t, id))
  {
    StartHolds();
    RunKeepsInv(START, steps);
    assert Placed(Execute(START, steps).state, t, id);
  }

  /** The host sees 1, 2, 3, … with repetitions only, each with the content that was logged. */
  lemma DeliveryIsOrderedWithoutGaps(steps: seq<Step>)
    requires Executable(START, steps)
    ensures var w := Execute(START, steps); Orderly(w.published, w.state.log)
  {
    StartHolds();
    RunKeepsInv(START, steps);
  }

  lemma {:induction false} OrderlyReachesAll(published: seq<Published>, log: seq<Notice>, n: nat)
    requires Orderly(published, log) && 1 <= n <= Frontier(published)
    ensures exists i :: 0 <= i < |published| && published[i].sequence == n
  {
    var last := |published| - 1;
    if published[last].sequence > n {
      var rest := published[..last];
      assert last > 0;
      assert Frontier(rest) >= published[last].sequence - 1;
      OrderlyReachesAll(rest, log, n);
      var i :| 0 <= i < |rest| && rest[i].sequence == n;
      assert published[i].sequence == n;
    }
  }

  /** At least once: nothing is acknowledged, and so deleted, that the host was not handed. */
  lemma AcknowledgedMeansDelivered(steps: seq<Step>, n: nat)
    requires Executable(START, steps)
    requires 1 <= n <= Execute(START, steps).state.acknowledged
    ensures var w := Execute(START, steps); n <= |w.state.log| && Published(n, w.state.log[n - 1]) in w.published
  {
    StartHolds();
    RunKeepsInv(START, steps);
    var w := Execute(START, steps);
    OrderlyReachesAll(w.published, w.state.log, n);
  }

  /** A repetition can only be of the notice a lost acknowledgement left first in line. */
  lemma OnlyTheFirstUnacknowledgedRepeats(steps: seq<Step>)
    requires Executable(START, steps)
    ensures var w := Execute(START, steps);
            forall p :: p in w.published ==> p.sequence <= w.state.acknowledged + 1
  {
    StartHolds();
    RunKeepsInv(START, steps);
    var w := Execute(START, steps);
    OrderlyIsBounded(w.published, w.state.log);
  }

  lemma {:induction false} OrderlyIsBounded(published: seq<Published>, log: seq<Notice>)
    requires Orderly(published, log)
    ensures forall p :: p in published ==> p.sequence <= Frontier(published)
  {
    if published != [] {
      var rest := published[..|published| - 1];
      OrderlyIsBounded(rest, log);
      assert published == rest + [published[|published| - 1]];
    }
  }

  /**
   * Retained notices keep their lane due, whatever rolls back, fails, is interrupted or crashes:
   * an alarm will come back for them.
   */
  lemma RetainedNoticesKeepTheLaneDue(steps: seq<Step>)
    requires Executable(START, steps)
    ensures var s := Execute(START, steps).state; s.acknowledged < |s.log| ==> DueQueue.IsDue(s.rows, LANE)
  {
    StartHolds();
    RunKeepsInv(START, steps);
  }

  /** One wave's way to its first acknowledgement. */
  function Delivery(revision: nat, now: int): seq<Step> {
    [Charge(revision, now), Range, Read, Publish, Acknowledge(now)]
  }

  /** And a wave that nothing cuts short delivers the first of them. */
  lemma DueWaveDeliversTheNext(steps: seq<Step>, now: int)
    requires Executable(START, steps)
    requires var w := Execute(START, steps);
             w.wave.Idle? && Pending(w.state) && LANE in w.state.rows && w.state.rows[LANE].dueAt.Some? && w.state.rows[LANE].dueAt.value <= now
    ensures var w := Execute(START, steps);
            var wave := Delivery(w.state.rows[LANE].revision, now);
            && Executable(w, wave)
            && Execute(w, wave).state.acknowledged == w.state.acknowledged + 1
            && Execute(w, wave).published == w.published + [Published(w.state.acknowledged + 1, w.state.log[w.state.acknowledged])]
  {
    StartHolds();
    RunKeepsInv(START, steps);
    DeliverTheNext(Execute(START, steps), now);
  }

  lemma DeliverTheNext(w: World, now: int)
    requires LaneInv(w) && w.state.acknowledged <= |w.state.log|
    requires w.wave.Idle? && Pending(w.state) && w.state.rows[LANE].dueAt.Some? && w.state.rows[LANE].dueAt.value <= now
    ensures var wave := Delivery(w.state.rows[LANE].revision, now);
            && Executable(w, wave)
            && Execute(w, wave).state.acknowledged == w.state.acknowledged + 1
            && Execute(w, wave).published == w.published + [Published(w.state.acknowledged + 1, w.state.log[w.state.acknowledged])]
  {
    var revision := w.state.rows[LANE].revision;
    var a := Apply(w, Charge(revision, now));
    assert a.flagged && a.state.acknowledged == w.state.acknowledged && a.state.log == w.state.log && a.published == w.published;
    HandOver(a, now);
    Then(w, Delivery(revision, now), a);
  }

  lemma HandOver(a: World, now: int)
    requires a.wave.Charged? && a.flagged && a.state.acknowledged < |a.state.log|
    ensures var rest := [Range, Read, Publish, Acknowledge(now)];
            && Executable(a, rest)
            && Execute(a, rest).state.acknowledged == a.state.acknowledged + 1
            && Execute(a, rest).published == a.published + [Published(a.state.acknowledged + 1, a.state.log[a.state.acknowledged])]
  {
    var b := Apply(a, Range);
    var c := Apply(b, Read);
    var d := Apply(c, Publish);
    var e := Apply(d, Acknowledge(now));
    Then(d, [Acknowledge(now)], e);
    Then(c, [Publish, Acknowledge(now)], d);
    Then(b, [Read, Publish, Acknowledge(now)], c);
    Then(a, [Range, Read, Publish, Acknowledge(now)], b);
  }

  lemma Then(w: World, steps: seq<Step>, u: World)
    requires steps != [] && Enabled(w, steps[0]) && u == Apply(w, steps[0]) && Executable(u, steps[1..])
    ensures Executable(w, steps) && Execute(w, steps) == Execute(u, steps[1..])
  {
  }
}
