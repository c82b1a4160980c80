/**
 * The theorems about whole runs of the Object: any number of producers, events, Attempts and
 * recoveries, interleaved step by step, with crashes between any two steps.
 */
module ThreadObjectRuns {
  import opened Common
  import opened DueQueue
  import opened Maintenance
  import opened ThreadScan
  import opened Dispatch
  import opened ThreadObject
  import opened ThreadObjectProofs
  import opened Quiescence

  lemma InitialHolds(c: Config, w: World)
    requires Initial(w)
    ensures Inv(c, w)
  {
  }

  lemma {:induction false} RunKeepsInvariants(c: Config, w: World, steps: seq<Step>)
    requires Inv(c, w) && Executable(c, w, steps)
    ensures Inv(c, Execute(c, w, steps))
    decreases steps
  {
    if steps != [] {
      StepKeepsInvariants(c, w, steps[0]);
      RunKeepsInvariants(c, Apply(c, w, steps[0]), steps[1..]);
    }
  }

  lemma StepKeepsInvariants(c: Config, w: World, s: Step)
    requires Inv(c, w) && Enabled(w, s)
    ensures Inv(c, Apply(c, w, s))
  {
    AlarmKept(c, w, s);
    DispatchKept(c, w, s);
    EnrolmentKept(c, w, s);
    QuietKept(c, w, s);
  }

  /**
   * The alarm invariant: once the Object has been constructed, whatever it owes, an alarm is
   * armed or the current delivery is still unfinished, and between deliveries the alarm fires no
   * later than the earliest deadline or the minimum delay.
   */
  ghost predicate ObligationsHaveAnAlarm(c: Config, u: World) {
    u.durable.initialized && Owes(u.durable) ==>
      && (u.delivering || u.durable.alarm.Some?)
      && (!u.delivering ==> Next(u.durable.rows).Some?)
      && (!u.delivering ==> u.durable.alarm.value <= Max(Next(u.durable.rows).value, u.now + MinimumDelay(c)))
  }

  lemma EveryObligationHasAnAlarm(c: Config, w: World, steps: seq<Step>)
    requires Initial(w) && Executable(c, w, steps)
    ensures ObligationsHaveAnAlarm(c, Execute(c, w, steps))
  {
    InitialHolds(c, w);
    RunKeepsInvariants(c, w, steps);
    AlarmInvCovers(c, Execute(c, w, steps));
  }

  lemma AlarmInvCovers(c: Config, u: World)
    requires AlarmInv(c, u)
    ensures ObligationsHaveAnAlarm(c, u)
  {
    if u.durable.initialized && Owes(u.durable) && !u.delivering {
      ArmedMeansAnAlarmForEveryObligation(u.durable, c, u.now);
    }
  }

  /** At most two Attempts at once, one a Thread, and never beside its own old recovery. */
  lemma DispatchIsBounded(c: Config, w: World, steps: seq<Step>)
    requires Initial(w) && Executable(c, w, steps)
    ensures var u := Execute(c, w, steps);
            u.event.Some? ==>
              && |u.event.value.attempts| <= CONCURRENCY
              && (forall t :: u.event.value.attempts[t] <= 1)
              && (forall t :: t in u.event.value.pending ==> t !in u.event.value.attempts)
  {
    InitialHolds(c, w);
    RunKeepsInvariants(c, w, steps);
  }

  /** A recorded fact keeps its lane due until a wave that started after it claims the lane. */
  lemma NoRecordedEnrolmentIsLost(c: Config, w: World, steps: seq<Step>)
    requires Initial(w) && Executable(c, w, steps)
    ensures var u := Execute(c, w, steps); forall lane :: lane in u.unserved ==> IsDue(u.durable.rows, lane)
  {
    InitialHolds(c, w);
    RunKeepsInvariants(c, w, steps);
  }

  /** No row would run by itself, from durable waits and the reports of the certifying event. */
  ghost predicate Quiescent(w: World, reports: map<Key, Report>) {
    var k := Alone(w.durable.record.bindingWaits, reports);
    forall t ::
      && QuietQueue(Queue(w.ledger, t), k)
      && (forall r :: r in Queue(w.ledger, t) ==> Waiting(r, k) || DormantFollower(r, k))
      && (Head(Queue(w.ledger, t), k).Some? ==> Waiting(Head(Queue(w.ledger, t), k).value, k))
  }

  /** Nothing is in flight and the ledger holds no autonomously runnable row. */
  ghost predicate Settled(u: World) {
    && !SourceActive(u)
    && (u.event.Some? ==> u.event.value.attempts == multiset{})
    && (u.event.Some? ==> forall t :: t in u.event.value.pending ==> Queue(u.ledger, t) == [])
    && Quiescent(u, u.certified.reports)
  }

  /**
   * Quiescence soundness: whenever the processed generation has caught up, unless the last
   * acknowledgement was hazardous, no source mutation is in flight, no Attempt runs, only empty
   * Threads are still recovering, and the ledger holds no autonomously runnable row.
   */
  lemma AcknowledgedMeansQuiescent(c: Config, w: World, steps: seq<Step>)
    requires Initial(w) && Executable(c, w, steps)
    ensures var u := Execute(c, w, steps); !Behind(u.durable.record) && !u.hazard ==> Settled(u)
  {
    InitialHolds(c, w);
    RunKeepsInvariants(c, w, steps);
    var u := Execute(c, w, steps);
    if AtRest(u) {
      var k := Alone(u.durable.record.bindingWaits, u.certified.reports);
      forall t
        ensures QuietQueue(Queue(u.ledger, t), k)
        ensures forall r :: r in Queue(u.ledger, t) ==> Waiting(r, k) || DormantFollower(r, k)
        ensures Head(Queue(u.ledger, t), k).Some? ==> Waiting(Head(Queue(u.ledger, t), k).value, k)
      {
        QuietIsMonotone(Queue(u.ledger, t), u.certified, k, None);
        QuietRows(Queue(u.ledger, t), k, None);
      }
    }
  }

  // ------------------------------------------------------------------ when no hazard can arise

  /** Every source commit records progress, and every final scan fits one page. */
  ghost predicate RecordsAndFits(c: Config, w: World, steps: seq<Step>)
    requires Executable(c, w, steps)
    decreases steps
  {
    steps != [] ==>
      && (steps[0].CommitSource? ==> steps[0].recorded)
      && (steps[0].ScanRemaining? ==> RowCount(w.ledger) < SCAN_PAGE_SIZE)
      && RecordsAndFits(c, Apply(c, w, steps[0]), steps[1..])
  }

  ghost predicate UnmarkedAdvance(a: Advance) {
    !a.silent && !a.raced && (a.phase == Remaining ==> !a.paged)
  }

  ghost predicate Unmarked(w: World) {
    !w.hazard && (w.event.Some? && w.event.value.advance.Some? ==> UnmarkedAdvance(w.event.value.advance.value))
  }

  lemma UnmarkedKeptByEvent(c: Config, w: World, s: Step)
    requires Unmarked(w) && Enabled(w, s) && (AdvanceStep(s) || FiberStep(s))
    requires s.ScanRemaining? ==> RowCount(w.ledger) < SCAN_PAGE_SIZE
    ensures Unmarked(Apply(c, w, s))
  {
    if s.Select? {
      var a := Apply(c, w, s).event.value.advance;
      assert a.Some? ==> a.value == w.event.value.advance.value.(phase := Chosen);
    }
  }

  lemma UnmarkedKept(c: Config, w: World, s: Step)
    requires Unmarked(w) && Enabled(w, s)
    requires s.CommitSource? ==> s.recorded
    requires s.ScanRemaining? ==> RowCount(w.ledger) < SCAN_PAGE_SIZE
    ensures Unmarked(Apply(c, w, s))
  {
    if AdvanceStep(s) || FiberStep(s) {
      UnmarkedKeptByEvent(c, w, s);
    } else {
      var u := Apply(c, w, s);
      assert u.event.None? || u.event.value == FRESH_EVENT || (w.event.Some? && u.event.value.advance == w.event.value.advance);
    }
  }

  lemma {:induction false} UnmarkedRun(c: Config, w: World, steps: seq<Step>)
    requires Unmarked(w) && Executable(c, w, steps) && RecordsAndFits(c, w, steps)
    ensures !Execute(c, w, steps).hazard
    decreases steps
  {
    if steps != [] {
      UnmarkedKept(c, w, steps[0]);
      UnmarkedRun(c, Apply(c, w, steps[0]), steps[1..]);
    }
  }

  /**
   * Where every source commit records progress and every final scan fits one page, an
   * acknowledged generation always means a settled Object: no hazard has to be excluded.
   */
  lemma RecordedAndUnpagedMeansQuiescent(c: Config, w: World, steps: seq<Step>)
    requires Initial(w) && Executable(c, w, steps) && RecordsAndFits(c, w, steps)
    ensures var u := Execute(c, w, steps); !Behind(u.durable.record) ==> Settled(u)
  {
    UnmarkedRun(c, w, steps);
    AcknowledgedMeansQuiescent(c, w, steps);
  }

  // ------------------------------------------------------------------ starvation freedom

  /** A step that chooses Threads to run. */
  ghost predicate Dispatches(w: World, s: Step) {
    Enabled(w, s) && s.Select? && w.event.value.advance.value.dispatch
  }

  ghost function RunnableAt(w: World, s: Step): set<ThreadId>
    requires Dispatches(w, s)
  {
    Runnable(w.durable, w.event.value, w.event.value.advance.value, s.stopping)
  }

  ghost function ChosenAt(w: World, s: Step): seq<ThreadId>
    requires Dispatches(w, s)
  {
    Selected(w.durable, w.event.value, w.event.value.advance.value, s.stopping)
  }

  ghost function Dispatching(c: Config, w: World, steps: seq<Step>): nat
    requires Executable(c, w, steps)
    decreases steps
  {
    if steps == [] then 0
    else (if Dispatches(w, steps[0]) then 1 else 0) + Dispatching(c, Apply(c, w, steps[0]), steps[1..])
  }

  /** Whenever the Object chooses, the Thread is runnable and all candidates are of the universe. */
  ghost predicate StaysRunnable(c: Config, w: World, steps: seq<Step>, universe: set<ThreadId>, t: ThreadId)
    requires Executable(c, w, steps)
    decreases steps
  {
    steps != [] ==>
      && (Dispatches(w, steps[0]) ==> t in RunnableAt(w, steps[0]) && RunnableAt(w, steps[0]) <= universe)
      && StaysRunnable(c, Apply(c, w, steps[0]), steps[1..], universe, t)
  }

  ghost predicate Serves(c: Config, w: World, steps: seq<Step>, t: ThreadId)
    requires Executable(c, w, steps)
    decreases steps
  {
    steps != [] &&
    ((Dispatches(w, steps[0]) && t in ChosenAt(w, steps[0])) || Serves(c, Apply(c, w, steps[0]), steps[1..], t))
  }

  /** Only a choice moves the cursor: producers, crashes, restarts and acknowledgements leave it. */
  lemma OnlyChoicesMoveTheCursor(c: Config, w: World, s: Step)
    requires Enabled(w, s)
    ensures Apply(c, w, s).durable.record.lastServed
            == if Dispatches(w, s) then Last(ChosenAt(w, s), w.durable.record.lastServed) else w.durable.record.lastServed
  {
    if SteadyStep(s) {
      SteadyStepsLeaveTheCursor(c, w, s);
    } else if !s.Select? {
      OtherStepsLeaveTheCursor(c, w, s);
    }
  }

  lemma SteadyStepsLeaveTheCursor(c: Config, w: World, s: Step)
    requires Enabled(w, s) && SteadyStep(s)
    ensures Apply(c, w, s).durable.record.lastServed == w.durable.record.lastServed
  {
    if s.StartAdvance? || s.Boot? {
      OpeningsLeaveTheCursor(c, w, s);
    } else if s.FinishPass? || s.FailPass? {
      EndsLeaveTheCursor(c, w, s);
    } else {
      ProducersLeaveTheCursor(c, w, s);
    }
  }

  lemma OpeningsLeaveTheCursor(c: Config, w: World, s: Step)
    requires Enabled(w, s) && (s.StartAdvance? || s.Boot?)
    ensures Apply(c, w, s).durable.record.lastServed == w.durable.record.lastServed
  {
  }

  lemma EndsLeaveTheCursor(c: Config, w: World, s: Step)
    requires Enabled(w, s) && (s.FinishPass? || s.FailPass?)
    ensures Apply(c, w, s).durable.record.lastServed == w.durable.record.lastServed
  {
  }

  lemma ProducersLeaveTheCursor(c: Config, w: World, s: Step)
    requires Enabled(w, s) && (s.BeginMutating? || s.CommitSource? || s.RecordOnly? || s.ScheduleLane? || s.Wake?)
    ensures Apply(c, w, s).durable.record.lastServed == w.durable.record.lastServed
  {
  }

  lemma OtherStepsLeaveTheCursor(c: Config, w: World, s: Step)
    requires Enabled(w, s) && !SteadyStep(s) && !s.Select?
    ensures Apply(c, w, s).durable.record.lastServed == w.durable.record.lastServed
  {
  }

  /** A choice serves the Thread or moves the cursor closer to it; other steps do neither. */
  lemma ChoiceIsCloser(c: Config, w: World, s: Step, universe: set<ThreadId>, t: ThreadId)
    requires DispatchInv(w) && Enabled(w, s)
    requires Dispatches(w, s) ==> t in RunnableAt(w, s) && RunnableAt(w, s) <= universe
    ensures var before, after := Distance(universe, w.durable.record.lastServed, t), Distance(universe, Apply(c, w, s).durable.record.lastServed, t);
            if Dispatches(w, s) then t in ChosenAt(w, s) || after < before else after == before
  {
    OnlyChoicesMoveTheCursor(c, w, s);
    if Dispatches(w, s) {
      var capacity := CONCURRENCY - |w.event.value.advance.value.reserved|;
      RotationIsCloser(universe, RunnableAt(w, s), w.durable.record.lastServed, capacity, t);
    }
  }

  lemma {:induction false} ServedWithinTheDistance(c: Config, w: World, steps: seq<Step>, universe: set<ThreadId>, t: ThreadId)
    requires Inv(c, w) && Executable(c, w, steps) && t in universe && StaysRunnable(c, w, steps, universe, t)
    requires Dispatching(c, w, steps) >= Distance(universe, w.durable.record.lastServed, t)
    ensures Serves(c, w, steps, t)
    decreases steps
  {
    DistanceBounds(universe, w.durable.record.lastServed, t);
    var s := steps[0];
    ChoiceIsCloser(c, w, s, universe, t);
    if !(Dispatches(w, s) && t in ChosenAt(w, s)) {
      StepKeepsInvariants(c, w, s);
      ServedWithinTheDistance(c, Apply(c, w, s), steps[1..], universe, t);
    }
  }

  /**
   * Starvation freedom: in any run, with crashes anywhere, a Thread that is runnable whenever the
   * Object chooses is chosen within as many choices as there are Threads.
   */
  lemma RunnableThreadIsDispatched(c: Config, start: World, before: seq<Step>, steps: seq<Step>, universe: set<ThreadId>, t: ThreadId)
    requires Initial(start) && Executable(c, start, before) && Executable(c, Execute(c, start, before), steps)
    requires t in universe && StaysRunnable(c, Execute(c, start, before), steps, universe, t)
    requires Dispatching(c, Execute(c, start, before), steps) >= |universe|
    ensures Serves(c, Execute(c, start, before), steps, t)
  {
    InitialHolds(c, start);
    RunKeepsInvariants(c, start, before);
    var w := Execute(c, start, before);
    DistanceBounds(universe, w.durable.record.lastServed, t);
    ServedWithinTheDistance(c, w, steps, universe, t);
  }
}
