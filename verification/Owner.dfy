/**
 * The browser run owner (examples/browser-speed/src/owner.ts): the persisted control record, one
 * run with its two preparations, and closing. An action is never replayed: not by a second
 * preparation inside a run, and not by a later run.
 */
module Owner {
  import opened Common

  type RunId = string
  type Session = nat

  datatype Status = Running | Completed | FailedRun | Cancelled
  datatype Cleanup = Pending | Closed | Broken
  datatype Report = Report(status: Status, cleanup: Cleanup)

  datatype Control = Control(
    reference: Option<Session>,
    active: Option<RunId>,
    lastRun: Option<RunId>,
    admitted: seq<RunId>,
    report: Option<Report>)

  const EMPTY_CONTROL := Control(None, None, None, [], None)

  const ADMISSION_LIMIT := 100

  datatype Code = BrowserFault | OtherFault

  datatype Refusal = Busy | Invalid

  predicate CleanupBroken(c: Control) {
    c.report.Some? && c.report.value.cleanup == Broken
  }

  /** The admission decision, in the order the owner takes it. */
  function Admission(c: Control, id: RunId): Result<Control, Refusal> {
    if c.active.Some? || id in c.admitted || c.lastRun == Some(id) then Err(Busy)
    else if |c.admitted| >= ADMISSION_LIMIT then Err(Invalid)
    else if CleanupBroken(c) then Err(Busy)
    else Ok(c.(active := Some(id), lastRun := Some(id), admitted := c.admitted + [id], report := Some(Report(Running, Pending))))
  }

  function Released(c: Control): Control {
    c.(active := None,
       report := match c.report
                 case None => None
                 case Some(r) => Some(Report(if r.status == Running then Cancelled else r.status, Closed)))
  }

  function Settled(c: Control, status: Status, cleaned: bool): Control {
    c.(active := None, report := Some(Report(if cleaned then status else FailedRun, if cleaned then Closed else Broken)))
  }

  /** Only a preparation that failed in the browser, before the ready boundary, is repeated. */
  predicate Retries(ordinal: nat, ready: bool, code: Code) {
    ordinal != 2 && !ready && code == BrowserFault
  }

  predicate Distinct(ids: seq<RunId>) {
    forall i, j :: 0 <= i < j < |ids| ==> ids[i] != ids[j]
  }

  predicate ControlHolds(c: Control) {
    && Distinct(c.admitted) && |c.admitted| <= ADMISSION_LIMIT
    && (c.active.Some? ==> c.active.value in c.admitted)
    && (c.lastRun.Some? ==> c.lastRun.value in c.admitted)
  }

  /** Admission succeeds exactly for a new id, with nothing unresolved and room left. */
  lemma AdmissionIsExact(c: Control, id: RunId)
    requires ControlHolds(c)
    ensures Admission(c, id).Ok? <==>
              id !in c.admitted && c.active.None? && !CleanupBroken(c) && |c.admitted| < ADMISSION_LIMIT
    ensures Admission(c, id).Ok? ==> ControlHolds(Admission(c, id).value)
    ensures ControlHolds(Released(c))
  {
  }

  // ------------------------------------------------------------------ one call at a time

  /** What happens to one closing: whether each remote call in it succeeds. */
  datatype ClosingWeather = ClosingWeather(kitesurf: bool, reference: bool, alarm: bool)

  /** How far one attempt gets: the step that fails, if any, and its code. */
  datatype AttemptWeather = AttemptWeather(
    closing: ClosingWeather,
    kitesurf: bool,            // the engine
    acquires: bool,
    prepares: bool,
    actions: nat,
    completes: bool,
    code: Code)

  /** Whether a closing with these outcomes gets through what it finds retained. */
  predicate Closes(c: Control, kitesurf: Option<Session>, w: ClosingWeather) {
    (kitesurf.Some? ==> w.kitesurf) && (c.reference.Some? ==> w.reference) && w.alarm
  }

  /** Whether an attempt with these outcomes reaches the ready boundary. */
  predicate Prepares(c: Control, kitesurf: Option<Session>, w: AttemptWeather) {
    Closes(c, kitesurf, w.closing) && w.acquires && w.prepares
  }

  datatype Action = Action(run: RunId, ordinal: nat)

  class BrowserOwner {
    var control: Control
    var kitesurf: Option<Session>
    ghost var acquired: set<Session>
    ghost var closed: set<Session>
    ghost var actions: seq<Action>

    /** Every browser this owner ever acquired is closed or retained, and at most one is retained. */
    ghost predicate Valid()
      reads this
    {
      && ControlHolds(control)
      && closed <= acquired
      && acquired - closed == Retained(control, kitesurf)
      && !(control.reference.Some? && kitesurf.Some?)
    }

    constructor ()
      ensures Valid() && control == EMPTY_CONTROL && kitesurf == None && actions == []
    {
      control, kitesurf := EMPTY_CONTROL, None;
      acquired, closed, actions := {}, {}, [];
    }

    method CloseReference(weather: ClosingWeather) returns (ok: bool)
      requires Valid()
      modifies this`control, this`kitesurf, this`closed
      ensures Valid() && old(closed) <= closed
      ensures control == old(control).(reference := control.reference)
      ensures ok ==> control.reference == None && kitesurf == None && acquired == closed
      ensures !ok ==> control.reference == old(control).reference || control.reference == None
      ensures ok <==> Closes(old(control), old(kitesurf), weather)
    {
      if kitesurf.Some? {
        if !weather.kitesurf { return false; }
        assert kitesurf.value in acquired - closed;
        closed := closed + {kitesurf.value};
        kitesurf := None;
        assert acquired - closed == Retained(control, kitesurf);
      }
      var reference := control.reference;
      if reference.Some? {
        if !weather.reference { return false; }
        assert reference.value in acquired - closed;
        closed := closed + {reference.value};
        control := control.(reference := None);
        assert acquired - closed == Retained(control, kitesurf);
      }
      assert forall x :: x in acquired ==> x in closed || x in acquired - closed;
      ok := weather.alarm;
    }

    /**
     * One attempt: close what is left, acquire a browser, prepare it, cross the ready boundary,
     * act. It acquires only when nothing is retained and everything acquired before is closed.
     */
    method Attempt(id: RunId, ordinal: nat, session: Session, weather: AttemptWeather, wasReady: bool)
      returns (failure: Option<Code>, ready: bool)
      requires Valid() && session !in acquired
      modifies this
      ensures Valid() && old(closed) <= closed
      ensures control == old(control).(reference := control.reference)
      ensures failure == if Prepares(old(control), old(kitesurf), weather) && weather.completes then None else Some(weather.code)
      ensures ready <==> wasReady || Prepares(old(control), old(kitesurf), weather)
      ensures |actions| == |old(actions)| + if Prepares(old(control), old(kitesurf), weather) then weather.actions else 0
      ensures old(actions) <= actions && forall a :: a in actions[|old(actions)|..] ==> a == Action(id, ordinal)
      ensures !ready ==> actions == old(actions)
      ensures acquired <= old(acquired) + {session}
      ensures acquired != old(acquired) ==> old(acquired) <= closed
    {
      ready := wasReady;
      var ok := CloseReference(weather.closing);
      if !ok || !weather.acquires { return Some(weather.code), ready; }
      assert control.reference.None? && kitesurf.None?;
      acquired := acquired + {session};
      if weather.kitesurf { kitesurf := Some(session); } else { control := control.(reference := Some(session)); }
      if !weather.prepares { return Some(weather.code), ready; }
      ready := true;
      for i := 0 to weather.actions
        invariant old(actions) <= actions && |actions| == |old(actions)| + i
        invariant forall a :: a in actions[|old(actions)|..] ==> a == Action(id, ordinal)
        modifies this`actions
      {
        ghost var before := actions;
        actions := actions + [Action(id, ordinal)];
        assert actions[|old(actions)|..] == before[|old(actions)|..] + [Action(id, ordinal)];
      }
      failure := if weather.completes then None else Some(weather.code);
    }

    /**
     * A whole run that nothing interrupts. All its actions lie in one attempt, it settles with
     * nothing active, and unless cleanup failed every browser ever acquired is closed.
     */
    method Run(id: RunId, sessions: (Session, Session), first: AttemptWeather, second: AttemptWeather, last: ClosingWeather)
      returns (r: Result<Report, Refusal>, ghost attempt: nat)
      requires Valid() && sessions.0 != sessions.1 && sessions.0 !in acquired && sessions.1 !in acquired
      modifies this
      ensures Valid()
      ensures Admission(old(control), id).Err? ==>
                r == Err(Admission(old(control), id).error) && control == old(control) && actions == old(actions) && acquired == old(acquired)
      ensures Admission(old(control), id).Ok? ==>
                r.Ok? && control.active == None && control.report == Some(r.value)
                && control.admitted == old(control).admitted + [id]
                && (r.value.cleanup == Closed ==> acquired == closed)
      ensures old(actions) <= actions
      ensures forall a :: a in actions[|old(actions)|..] ==> a == Action(id, attempt)
      ensures Admission(old(control), id).Ok? ==>
                var repeats := !Prepares(old(control), old(kitesurf), first) && first.code == BrowserFault;
                && attempt == (if repeats then 2 else 1)
                && (r.value.status == Completed ==> (if repeats then second.completes else Prepares(old(control), old(kitesurf), first) && first.completes))
    {
      var admission := Admission(control, id);
      if admission.Err? {
        return Err(admission.error), 1;
      }
      AdmissionIsExact(control, id);
      control := admission.value;
      ghost var admitted := control;
      var ordinal := 1;
      var failure, ready := Attempt(id, 1, sessions.0, first, false);
      if failure.Some? && Retries(ordinal, ready, failure.value) {
        ordinal := 2;
        assert actions == old(actions);
        failure, ready := Attempt(id, 2, sessions.1, second, ready);
      }
      attempt := ordinal;
      assert control == admitted.(reference := control.reference);
      var status := if failure.None? then Completed else FailedRun;
      var cleaned := CloseReference(last);
      control := Settled(control, status, cleaned);
      r := Ok(control.report.value);
    }

    /** Closing between runs resolves a lost run and a failed cleanup, or changes neither. */
    method Close(weather: ClosingWeather) returns (ok: bool)
      requires Valid()
      modifies this`control, this`kitesurf, this`closed
      ensures Valid()
      ensures ok ==> control == Released(old(control)).(reference := None) && kitesurf == None && acquired == closed
      ensures !ok ==> control == old(control).(reference := control.reference)
      ensures ok ==> control.active == None && !CleanupBroken(control)
    {
      ok := CloseReference(weather);
      if ok { control := Released(control); }
    }
  }

  function Retained(c: Control, kitesurf: Option<Session>): set<Session> {
    (if c.reference.Some? then {c.reference.value} else {}) + (if kitesurf.Some? then {kitesurf.value} else {})
  }
}
