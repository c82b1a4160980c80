/**
 * The browser run owner over whole histories: runs, closings, stops and crashes interleaved call
 * by call, each remote call free to fail (examples/browser-speed/src/owner.ts, 126-192 and
 * 259-522; the ready boundary of examples/browser-speed/src/telemetry.ts, 113-117).
 */
module OwnerRuns {
  import opened Common
  import opened Owner

  /** Where one closing of the retained browser stands. */
  datatype Closing = Begun | ClosingKitesurf(kitesurf: Session) | ClosingReference(reference: Session) | ClearingAlarm

  datatype Stage =
    | Emptying(closing: Closing)
    | Acquiring
    | Preparing
    | Acting
    | Cleaning(closing: Closing)
    | Cleaned(ok: bool)

  datatype Run = Run(ordinal: nat, ready: bool, status: Status, stage: Stage)

  /**
   * `running` is the owner's own note of its current run; `runs` are the fibers there really are.
   * `acquired`, `closed`, `orphaned` and `actions` are history: sessions acquired, confirmed
   * closed, forgotten in a crash, and every task action. `overlapped` records an admission while
   * a close call was still in flight.
   */
  datatype World = World(
    control: Control,
    running: Option<RunId>,
    kitesurf: Option<Session>,
    runs: map<RunId, Run>,
    closes: map<nat, Closing>,
    acquired: set<Session>,
    closed: set<Session>,
    orphaned: set<Session>,
    actions: seq<Action>,
    overlapped: bool)

  datatype Step =
    | Crash
    | Admit(id: RunId)
    | RunCloses(id: RunId)
    | CleanupFails(id: RunId)
    | Acquire(id: RunId, session: Session, isKitesurf: bool)
    | Ready(id: RunId)
    | Act(id: RunId)
    | Complete(id: RunId)
    | AttemptFails(id: RunId, code: Code)
    | Interrupt(id: RunId)
    | Settle(id: RunId)
    | Abandon(id: RunId)
    | BeginClose(call: nat)
    | CloseAdvances(call: nat)
    | CloseFails(call: nat)
    | Release(call: nat)

  const START := World(EMPTY_CONTROL, None, None, map[], map[], {}, {}, {}, [], false)

  predicate InAttempt(r: Run) {
    r.stage.Emptying? || r.stage.Acquiring? || r.stage.Preparing? || r.stage.Acting?
  }

  /** Closing has one more remote call to make before its last one, the alarm. */
  predicate Enabled(w: World, s: Step) {
    match s
    case Crash => true
    case Admit(id) => Admission(w.control, id).Ok? && id !in w.runs
    case RunCloses(id) => id in w.runs && (w.runs[id].stage.Emptying? || w.runs[id].stage.Cleaning?)
    case CleanupFails(id) => id in w.runs && w.runs[id].stage.Cleaning?
    case Acquire(id, session, _) => id in w.runs && w.runs[id].stage.Acquiring? && session !in w.acquired
    case Ready(id) => id in w.runs && w.runs[id].stage.Preparing?
    case Act(id) => id in w.runs && w.runs[id].stage.Acting?
    case Complete(id) => id in w.runs && w.runs[id].stage.Acting?
    case AttemptFails(id, _) => id in w.runs && InAttempt(w.runs[id])
    case Interrupt(id) => id in w.runs && InAttempt(w.runs[id])
    case Settle(id) => id in w.runs && w.runs[id].stage.Cleaned?
    case Abandon(id) => id in w.runs && w.runs[id].stage.Cleaned?
    case BeginClose(call) => w.running.None? && call !in w.closes
    case CloseAdvances(call) => call in w.closes && !w.closes[call].ClearingAlarm?
    case CloseFails(call) => call in w.closes
    case Release(call) => call in w.closes && w.closes[call].ClearingAlarm?
  }

  /** A closing goes on to what it finds retained at that moment, and ends at the alarm. */
  function AfterKitesurf(c: Control): Closing {
    if c.reference.Some? then ClosingReference(c.reference.value) else ClearingAlarm
  }

  function NextClosing(w: World, c: Closing): Closing {
    match c
    case Begun => if w.kitesurf.Some? then ClosingKitesurf(w.kitesurf.value) else AfterKitesurf(w.control)
    case ClosingKitesurf(_) => AfterKitesurf(w.control)
    case ClosingReference(_) => ClearingAlarm
    case ClearingAlarm => ClearingAlarm
  }

  /** What the confirmed remote call of a closing changes. */
  function Confirmed(w: World, c: Closing): World {
    match c
    case Begun => w
    case ClosingKitesurf(k) => w.(kitesurf := None, closed := w.closed + {k})
    case ClosingReference(r) => w.(control := w.control.(reference := None), closed := w.closed + {r})
    case ClearingAlarm => w
  }

  function WithRun(w: World, id: RunId, r: Run): World {
    w.(runs := w.runs[id := r])
  }

  function AfterEmptying(s: Stage): Stage {
    if s.Emptying? then Acquiring else Cleaned(true)
  }

  function Moved(s: Stage, c: Closing): Stage {
    if s.Emptying? then Emptying(c) else Cleaning(c)
  }

  function Apply(w: World, s: Step): World
    requires Enabled(w, s)
  {
    match s
    case Crash =>
      w.(running := None, kitesurf := None, runs := map[], closes := map[],
         orphaned := w.orphaned + (if w.kitesurf.Some? then {w.kitesurf.value} else {}))
    case Admit(id) =>
      w.(control := Admission(w.control, id).value,
         running := Some(id),
         runs := w.runs[id := Run(1, false, Running, Emptying(Begun))],
         overlapped := w.overlapped || w.closes != map[])
    case RunCloses(id) =>
      var r := w.runs[id];
      if r.stage.closing.ClearingAlarm? then WithRun(w, id, r.(stage := AfterEmptying(r.stage)))
      else
        var u := Confirmed(w, r.stage.closing);
        WithRun(u, id, r.(stage := Moved(r.stage, NextClosing(u, r.stage.closing))))
    case CleanupFails(id) => WithRun(w, id, w.runs[id].(stage := Cleaned(false)))
    case Acquire(id, session, isKitesurf) =>
      var u := if isKitesurf then w.(kitesurf := Some(session)) else w.(control := w.control.(reference := Some(session)));
      WithRun(u.(acquired := w.acquired + {session}), id, w.runs[id].(stage := Preparing))
    case Ready(id) => WithRun(w, id, w.runs[id].(stage := Acting, ready := true))
    case Act(id) => w.(actions := w.actions + [Action(id, w.runs[id].ordinal)])
    case Complete(id) => WithRun(w, id, w.runs[id].(stage := Cleaning(Begun), status := Completed))
    case AttemptFails(id, code) =>
      var r := w.runs[id];
      WithRun(w, id,
        if Retries(r.ordinal, r.ready, code) then Run(2, r.ready, Running, Emptying(Begun))
        else r.(stage := Cleaning(Begun), status := FailedRun))
    case Interrupt(id) => WithRun(w, id, w.runs[id].(stage := Cleaning(Begun), status := Cancelled))
    case Settle(id) =>
      w.(control := Settled(w.control, w.runs[id].status, w.runs[id].stage.ok), running := None, runs := w.runs - {id})
    case Abandon(id) => w.(running := None, runs := w.runs - {id})
    case BeginClose(call) => w.(closes := w.closes[call := Begun])
    case CloseAdvances(call) =>
      var u := Confirmed(w, w.closes[call]);
      u.(closes := w.closes[call := NextClosing(u, w.closes[call])])
    case CloseFails(call) => w.(closes := w.closes - {call})
    case Release(call) => w.(control := Released(w.control), closes := w.closes - {call})
  }

  predicate Executable(w: World, steps: seq<Step>)
    decreases steps
  {
    steps == [] || (Enabled(w, steps[0]) && Executable(Apply(w, steps[0]), steps[1..]))
  }

  function Execute(w: World, steps: seq<Step>): World
    requires Executable(w, steps)
    decreases steps
  {
    if steps == [] then w else Execute(Apply(w, steps[0]), steps[1..])
  }

  // ------------------------------------------------------------------ what always holds

  function Attempts(w: World, id: RunId): set<nat> {
    set a | a in w.actions && a.run == id :: a.ordinal
  }

  /** What a run may have done so far: nothing before it is ready, then only in its last attempt. */
  predicate RunHolds(w: World, id: RunId, r: Run) {
    && id in w.control.admitted
    && 1 <= r.ordinal <= 2
    && (r.stage.Emptying? || r.stage.Acquiring? || r.stage.Preparing? ==> !r.ready)
    && (r.stage.Acting? ==> r.ready)
    && (forall a :: a in w.actions && a.run == id ==> r.ready && a.ordinal == r.ordinal)
  }

  predicate Inv(w: World) {
    && ControlHolds(w.control)
    && (forall id :: id in w.runs ==> RunHolds(w, id, w.runs[id]))
    && (forall i, j :: 0 <= i < j < |w.actions| && w.actions[i].run == w.actions[j].run ==> w.actions[i].ordinal == w.actions[j].ordinal)
    && (forall a :: a in w.actions ==> a.run in w.control.admitted)
  }

  lemma ActKeepsInv(w: World, s: Step)
    requires Inv(w) && Enabled(w, s) && s.Act?
    ensures Inv(Apply(w, s))
  {
    var u := Apply(w, s);
    var last := Action(s.id, w.runs[s.id].ordinal);
    assert forall a :: a in u.actions <==> a in w.actions || a == last;
    assert forall i :: 0 <= i < |w.actions| ==> u.actions[i] == w.actions[i] && w.actions[i] in w.actions;
  }

  lemma AdmitKeepsInv(w: World, s: Step)
    requires Inv(w) && Enabled(w, s) && s.Admit?
    ensures Inv(Apply(w, s))
  {
    AdmissionIsExact(w.control, s.id);
    var u := Apply(w, s);
    assert u.control.admitted == w.control.admitted + [s.id];
    forall id | id in u.runs ensures RunHolds(u, id, u.runs[id]) {
      if id != s.id { assert RunHolds(w, id, w.runs[id]); }
    }
  }

  predicate OfOneRun(s: Step) {
    s.RunCloses? || s.CleanupFails? || s.Acquire? || s.Ready? || s.Complete? || s.AttemptFails? || s.Interrupt?
  }

  lemma RunStepShape(w: World, s: Step)
    requires Enabled(w, s) && OfOneRun(s)
    ensures var u := Apply(w, s);
            && s.id in w.runs && s.id in u.runs && u.runs == w.runs[s.id := u.runs[s.id]]
            && u.actions == w.actions && u.control == w.control.(reference := u.control.reference)
  {
  }

  lemma RunStepKeepsRun(w: World, s: Step)
    requires Enabled(w, s) && OfOneRun(s) && RunHolds(w, s.id, w.runs[s.id])
    ensures s.id in Apply(w, s).runs && RunHolds(Apply(w, s), s.id, Apply(w, s).runs[s.id])
  {
    RunStepShape(w, s);
  }

  lemma RunStepKeepsInv(w: World, s: Step)
    requires Inv(w) && Enabled(w, s) && OfOneRun(s)
    ensures Inv(Apply(w, s))
  {
    RunStepShape(w, s);
    RunStepKeepsRun(w, s);
    KeepsInvOtherwise(w, Apply(w, s), s.id);
  }

  lemma KeepsInvOtherwise(w: World, u: World, id: RunId)
    requires Inv(w)
    requires id in u.runs && RunHolds(u, id, u.runs[id]) && u.runs == w.runs[id := u.runs[id]]
    requires u.actions == w.actions && u.control == w.control.(reference := u.control.reference)
    ensures Inv(u)
  {
    forall i | i in u.runs ensures RunHolds(u, i, u.runs[i]) {
      if i != id { assert RunHolds(w, i, w.runs[i]); }
    }
  }

  lemma StepKeepsInv(w: World, s: Step)
    requires Inv(w) && Enabled(w, s)
    ensures Inv(Apply(w, s))
    ensures w.control.admitted <= Apply(w, s).control.admitted
  {
    if s.Admit? {
      AdmitKeepsInv(w, s);
    } else if s.Act? {
      ActKeepsInv(w, s);
    } else if OfOneRun(s) {
      RunStepKeepsInv(w, s);
    } else {
      OtherStepShape(w, s);
      var u := Apply(w, s);
      forall id | id in u.runs ensures RunHolds(u, id, u.runs[id]) {
        assert RunHolds(w, id, w.runs[id]);
      }
    }
  }

  lemma OtherStepShape(w: World, s: Step)
    requires Enabled(w, s) && !OfOneRun(s) && !s.Admit? && !s.Act?
    ensures var u := Apply(w, s);
            && u.actions == w.actions && u.control.admitted == w.control.admitted && u.control.lastRun == w.control.lastRun
            && (u.control.active == w.control.active || u.control.active == None)
            && (forall id :: id in u.runs ==> id in w.runs && u.runs[id] == w.runs[id])
  {
  }

  lemma {:induction false} RunKeepsInv(w: World, steps: seq<Step>)
    requires Inv(w) && Executable(w, steps)
    ensures Inv(Execute(w, steps))
    ensures w.control.admitted <= Execute(w, steps).control.admitted
    decreases steps
  {
    if steps != [] {
      StepKeepsInv(w, steps[0]);
      RunKeepsInv(Apply(w, steps[0]), steps[1..]);
    }
  }

  /** Every id ever admitted in a history, in order. */
  function Admissions(steps: seq<Step>): seq<RunId> {
    if steps == [] then []
    else Admissions(steps[..|steps| - 1]) + (if steps[|steps| - 1].Admit? then [steps[|steps| - 1].id] else [])
  }

  lemma {:induction false} ExecuteSplits(w: World, steps: seq<Step>)
    requires steps != [] && Executable(w, steps)
    ensures var n := |steps| - 1;
            && Executable(w, steps[..n])
            && Enabled(Execute(w, steps[..n]), steps[n])
            && Execute(w, steps) == Apply(Execute(w, steps[..n]), steps[n])
    decreases steps
  {
    var n := |steps| - 1;
    if n > 0 {
      ExecuteSplits(Apply(w, steps[0]), steps[1..]);
      assert steps[1..][..n - 1] == steps[..n][1..];
    } else {
      assert steps[..n] == [] && steps[1..] == [];
    }
  }

  /** The persisted list is the whole history of admissions: crashes and closings never lose one. */
  lemma {:induction false} AdmittedIsTheHistory(steps: seq<Step>)
    requires Executable(START, steps)
    ensures Execute(START, steps).control.admitted == Admissions(steps)
    decreases |steps|
  {
    if steps != [] {
      ExecuteSplits(START, steps);
      AdmittedIsTheHistory(steps[..|steps| - 1]);
    }
  }

  /** No id is admitted twice, whatever stops, closings and crashes come between. */
  lemma NoRunIsAdmittedTwice(steps: seq<Step>)
    requires Executable(START, steps)
    ensures Distinct(Admissions(steps)) && |Admissions(steps)| <= ADMISSION_LIMIT
  {
    RunKeepsInv(START, steps);
    AdmittedIsTheHistory(steps);
  }

  /** All actions of a run lie in one attempt, in every history. */
  lemma ActionsLieInOneAttempt(steps: seq<Step>, a: Action, b: Action)
    requires Executable(START, steps)
    requires var w := Execute(START, steps); a in w.actions && b in w.actions && a.run == b.run
    ensures a.ordinal == b.ordinal && a.run in Admissions(steps)
  {
    RunKeepsInv(START, steps);
    AdmittedIsTheHistory(steps);
    var acts := Execute(START, steps).actions;
    var i :| 0 <= i < |acts| && acts[i] == a;
    var j :| 0 <= j < |acts| && acts[j] == b;
    assert acts[i].ordinal == acts[j].ordinal;
  }

  // ------------------------------------------------------------------ unresolved runs

  /** A run lost without settling, or a cleanup that failed. */
  predicate Unresolved(w: World) {
    w.running.None? && w.runs == map[] && (w.control.active.Some? || CleanupBroken(w.control))
  }

  /** Nothing but a completed close resolves it: until then no run is admitted. */
  lemma {:induction false} OnlyClosingResolves(w: World, steps: seq<Step>)
    requires Unresolved(w) && Executable(w, steps)
    requires forall s :: s in steps ==> !s.Release?
    ensures Unresolved(Execute(w, steps)) && Execute(w, steps).control.active == w.control.active
    ensures forall s :: s in steps ==> !s.Admit?
    decreases steps
  {
    if steps != [] {
      assert steps[0] in steps;
      assert forall s :: s in steps[1..] ==> s in steps;
      OnlyClosingResolves(Apply(w, steps[0]), steps[1..]);
      assert forall s :: s in steps ==> s == steps[0] || s in steps[1..];
    }
  }

  // ------------------------------------------------------------------ one browser, one run

  predicate Holds(c: Closing, w: World) {
    && (c.ClosingKitesurf? ==> w.kitesurf == Some(c.kitesurf))
    && (c.ClosingReference? ==> w.kitesurf == None && w.control.reference == Some(c.reference))
    && (c.ClearingAlarm? ==> w.kitesurf == None && w.control.reference == None)
  }

  /** What a history without an overlapped admission keeps. */
  predicate Exclusive(w: World) {
    && w.closed + w.orphaned <= w.acquired
    && w.runs.Keys == (if w.running.Some? then {w.running.value} else {})
    && (w.running.Some? ==> w.closes == map[] && w.control.active == w.running)
    && w.acquired - w.closed - w.orphaned == Retained(w.control, w.kitesurf)
    && !(w.control.reference.Some? && w.kitesurf.Some?)
    && (forall id :: id in w.runs && w.runs[id].stage.Acquiring? ==> w.control.reference == None && w.kitesurf == None)
    && (forall id :: id in w.runs && (w.runs[id].stage.Emptying? || w.runs[id].stage.Cleaning?) ==> Holds(w.runs[id].stage.closing, w))
  }

  /** Closings between runs may overlap: only what each has confirmed is certain. */
  predicate ClosesHold(w: World) {
    forall c :: c in w.closes ==>
      && (w.closes[c].ClosingKitesurf? ==> if w.kitesurf == None then w.closes[c].kitesurf in w.closed else w.kitesurf == Some(w.closes[c].kitesurf))
      && (w.closes[c].ClosingReference? ==> w.kitesurf == None)
      && (w.closes[c].ClosingReference? ==> if w.control.reference == None then w.closes[c].reference in w.closed else w.control.reference == Some(w.closes[c].reference))
      && (w.closes[c].ClearingAlarm? ==> w.kitesurf == None && w.control.reference == None)
  }

  ghost predicate OneBrowser(w: World) {
    !w.overlapped ==> Exclusive(w) && ClosesHold(w)
  }

  /** Outside an overlap a run is alone: its steps are those of a world with nothing else in it. */
  lemma RunIsAlone(w: World, id: RunId, r: Run)
    requires Exclusive(w) && id in w.runs
    ensures w.running == Some(id) && w.closes == map[]
    ensures w.runs[id := r].Keys == w.runs.Keys
    ensures forall i :: i in w.runs ==> i == id
  {
    assert id in w.runs.Keys;
  }

  lemma ClosingKeepsOneBrowser(w: World, s: Step)
    requires Exclusive(w) && Enabled(w, s) && s.RunCloses?
    ensures Exclusive(Apply(w, s)) && Apply(w, s).closes == map[]
  {
    var u := Apply(w, s);
    RunIsAlone(w, s.id, u.runs[s.id]);
    var closing := w.runs[s.id].stage.closing;
    assert Holds(closing, w);
    var open := w.acquired - w.closed - w.orphaned;
    if closing.ClosingKitesurf? {
      assert u.acquired - u.closed - u.orphaned == open - {closing.kitesurf};
    } else if closing.ClosingReference? {
      assert u.acquired - u.closed - u.orphaned == open - {closing.reference};
    }
  }

  lemma AcquiringKeepsOneBrowser(w: World, s: Step)
    requires Exclusive(w) && Enabled(w, s) && s.Acquire?
    ensures Exclusive(Apply(w, s)) && Apply(w, s).closes == map[]
  {
    var u := Apply(w, s);
    RunIsAlone(w, s.id, u.runs[s.id]);
    assert u.acquired - u.closed - u.orphaned == {s.session};
  }

  lemma OneBrowserKeptByRuns(w: World, s: Step)
    requires OneBrowser(w) && Enabled(w, s) && !Apply(w, s).overlapped
    requires OfOneRun(s) || s.Act?
    ensures OneBrowser(Apply(w, s))
  {
    if s.RunCloses? {
      ClosingKeepsOneBrowser(w, s);
    } else if s.Acquire? {
      AcquiringKeepsOneBrowser(w, s);
    } else {
      var u := Apply(w, s);
      RunIsAlone(w, s.id, u.runs[s.id]);
      assert u == w.(runs := u.runs, actions := u.actions);
    }
  }

  lemma CrashKeepsRetention(w: World, u: World)
    requires Exclusive(w) && Enabled(w, Crash) && u == Apply(w, Crash)
    ensures u.acquired - u.closed - u.orphaned == Retained(u.control, u.kitesurf)
    ensures u.closed + u.orphaned <= u.acquired
  {
    var open := w.acquired - w.closed - w.orphaned;
    assert open == Retained(w.control, w.kitesurf);
    assert w.kitesurf.Some? ==> w.kitesurf.value in open;
    forall x ensures x in u.acquired - u.closed - u.orphaned <==> x in Retained(u.control, u.kitesurf) {
      assert x in u.acquired - u.closed - u.orphaned <==> x in open && w.kitesurf != Some(x);
    }
  }

  lemma OneBrowserKept(w: World, s: Step)
    requires OneBrowser(w) && Enabled(w, s)
    ensures OneBrowser(Apply(w, s))
  {
    var u := Apply(w, s);
    if !u.overlapped {
      if OfOneRun(s) || s.Act? {
        OneBrowserKeptByRuns(w, s);
      } else if s.Admit? {
        assert w.control.active.None?;
        assert w.closes == map[] && w.runs.Keys == {};
      } else if s.Settle? || s.Abandon? {
        assert s.id in w.runs.Keys;
      } else if s.Crash? {
        CrashKeepsRetention(w, u);
      }
    }
  }

  lemma {:induction false} RunKeepsOneBrowser(w: World, steps: seq<Step>)
    requires OneBrowser(w) && Executable(w, steps)
    ensures OneBrowser(Execute(w, steps))
    decreases steps
  {
    if steps != [] {
      OneBrowserKept(w, steps[0]);
      RunKeepsOneBrowser(Apply(w, steps[0]), steps[1..]);
    }
  }

  /**
   * While no run is admitted beside a close call in flight: at most one run at a time, at most
   * one browser that is neither confirmed closed nor lost to a crash, and a run acquires one, for
   * its first or its second preparation, only after all earlier ones are confirmed closed.
   */
  lemma OneRunAndOneBrowser(steps: seq<Step>)
    requires Executable(START, steps) && !Execute(START, steps).overlapped
    ensures var w := Execute(START, steps);
            && |w.runs| <= 1
            && |w.acquired - w.closed - w.orphaned| <= 1
            && (forall id :: id in w.runs ==> w.control.active == Some(id))
            && (forall s: Step :: s.Acquire? && Enabled(w, s) ==> w.control.reference == None && w.kitesurf == None && w.acquired <= w.closed + w.orphaned)
  {
    RunKeepsOneBrowser(START, steps);
    ExclusiveMeansOne(Execute(START, steps));
  }

  lemma ExclusiveMeansOne(w: World)
    requires Exclusive(w)
    ensures |w.runs| <= 1 && |w.acquired - w.closed - w.orphaned| <= 1
    ensures forall id :: id in w.runs ==> w.control.active == Some(id)
    ensures forall s: Step :: s.Acquire? && Enabled(w, s) ==> w.control.reference == None && w.kitesurf == None && w.acquired <= w.closed + w.orphaned
  {
    assert |w.runs| == |w.runs.Keys|;
    var open := w.acquired - w.closed - w.orphaned;
    assert open == {} ==> w.acquired <= w.closed + w.orphaned;
    forall id | id in w.runs ensures w.control.active == Some(id) {
      assert id in w.runs.Keys;
    }
  }

  // ------------------------------------------------------------------ a slow close call

  /** One request to close, slow enough for an admission to come before its last write. */
  function SlowClose(a: RunId, b: RunId): seq<Step> {
    [BeginClose(1), CloseAdvances(1), Admit(a), Release(1), Admit(b)]
  }

  const NEW_RUN := Run(1, false, Running, Emptying(Begun))

  /** What the record says of a run admitted last. */
  function Current(ids: seq<RunId>): Control
    requires ids != []
  {
    Control(None, Some(ids[|ids| - 1]), Some(ids[|ids| - 1]), ids, Some(Report(Running, Pending)))
  }

  function Scene(control: Control, running: Option<RunId>, runs: map<RunId, Run>, closes: map<nat, Closing>, overlapped: bool): World {
    World(control, running, None, runs, closes, {}, {}, {}, [], overlapped)
  }

  lemma AdmitDuringTheClose(a: RunId)
    ensures var steps := [BeginClose(1), CloseAdvances(1), Admit(a)];
            && Executable(START, steps)
            && Execute(START, steps) == Scene(Current([a]), Some(a), map[a := NEW_RUN], map[1 := ClearingAlarm], true)
  {
    var w1 := Scene(EMPTY_CONTROL, None, map[], map[1 := Begun], false);
    var w2 := Scene(EMPTY_CONTROL, None, map[], map[1 := ClearingAlarm], false);
    assert [] + [a] == [a];
    assert Apply(START, BeginClose(1)) == w1;
    assert Apply(w1, CloseAdvances(1)) == w2;
    assert 1 in w2.closes;
    Prepend(w2, [Admit(a)], Apply(w2, Admit(a)));
    Prepend(w1, [CloseAdvances(1), Admit(a)], w2);
    Prepend(START, [BeginClose(1), CloseAdvances(1), Admit(a)], w1);
  }

  lemma ReleaseTheRunningOne(a: RunId, b: RunId)
    requires a != b
    ensures var w := Scene(Current([a]), Some(a), map[a := NEW_RUN], map[1 := ClearingAlarm], true);
            && Executable(w, [Release(1), Admit(b)])
            && Execute(w, [Release(1), Admit(b)]) == Scene(Current([a, b]), Some(b), map[a := NEW_RUN, b := NEW_RUN], map[], true)
  {
    var w := Scene(Current([a]), Some(a), map[a := NEW_RUN], map[1 := ClearingAlarm], true);
    var w1 := Scene(Released(Current([a])), Some(a), map[a := NEW_RUN], map[], true);
    assert [a] + [b] == [a, b] && b !in [a];
    assert Apply(w, Release(1)) == w1;
    Prepend(w1, [Admit(b)], Apply(w1, Admit(b)));
    Prepend(w, [Release(1), Admit(b)], w1);
  }

  /** It then releases the new run while it runs, and another is admitted beside it. */
  lemma SlowCloseAdmitsTwoRuns(a: RunId, b: RunId)
    requires a != b
    ensures Executable(START, SlowClose(a, b))
    ensures var w := Execute(START, SlowClose(a, b)); w.overlapped && w.runs.Keys == {a, b} && w.control.active == Some(b)
  {
    AdmitDuringTheClose(a);
    ReleaseTheRunningOne(a, b);
    Concatenate(START, [BeginClose(1), CloseAdvances(1), Admit(a)], [Release(1), Admit(b)]);
    assert SlowClose(a, b) == [BeginClose(1), CloseAdvances(1), Admit(a)] + [Release(1), Admit(b)];
  }

  lemma {:induction false} Concatenate(w: World, a: seq<Step>, b: seq<Step>)
    requires Executable(w, a) && Executable(Execute(w, a), b)
    ensures Executable(w, a + b) && Execute(w, a + b) == Execute(Execute(w, a), b)
    decreases a
  {
    if a == [] {
      assert a + b == b;
    } else {
      assert (a + b)[1..] == a[1..] + b;
      Concatenate(Apply(w, a[0]), a[1..], b);
    }
  }

  lemma Prepend(w: World, steps: seq<Step>, u: World)
    requires steps != [] && Enabled(w, steps[0]) && u == Apply(w, steps[0]) && Executable(u, steps[1..])
    ensures Executable(w, steps) && Execute(w, steps) == Execute(u, steps[1..])
  {
  }
}
