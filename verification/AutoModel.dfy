/**
 * Choosing a model once for each Thread (packages/ai-decision/src/AutoModel.ts): a store that
 * serialises selections behind one permit a Thread, and a catalog that writes and restores
 * selection records.
 */
module AutoModel {
  import opened Common

  type ThreadName = string
  type Model = string

  datatype Decision = Decision(
    answer: string,
    probabilities: map<string, real>,
    confidence: Option<real>,
    inputTokens: Option<nat>,
    outputTokens: Option<nat>)

  datatype Record = Record(
    version: nat,
    thread: ThreadName,
    catalogVersion: string,
    profile: string,
    decision: Decision)

  datatype Catalog = Catalog(version: string, models: map<string, Model>)

  datatype Error = InvalidRequest | InvalidOutput | CapacityExceeded | DecisionFailed

  datatype Selection = Selection(model: Model, record: Record)

  predicate Unit(x: real) { 0.0 <= x <= 1.0 }

  /** What the record schema accepts. */
  predicate WellFormed(r: Record) {
    && r.version == 2
    && r.thread != "" && r.catalogVersion != "" && r.profile != "" && r.decision.answer != ""
    && (forall k :: k in r.decision.probabilities ==> Unit(r.decision.probabilities[k]))
    && (r.decision.confidence.Some? ==> Unit(r.decision.confidence.value))
  }

  /** Only a record of this Thread and catalog, naming one of its profiles, gives a model back. */
  function Restore(c: Catalog, thread: ThreadName, r: Record): Result<Selection, Error> {
    if !WellFormed(r) then Err(InvalidRequest)
    else if r.thread != thread || r.catalogVersion != c.version then Err(InvalidRequest)
    else if r.profile !in c.models || r.decision.answer != r.profile then Err(InvalidRequest)
    else Ok(Selection(c.models[r.profile], r))
  }

  function Select(c: Catalog, thread: ThreadName, decision: Option<Decision>): Result<Selection, Error> {
    if thread == "" || c.version == "" || |c.models| < 2 || "" in c.models then Err(InvalidRequest)
    else if decision.None? then Err(DecisionFailed)
    else if decision.value.answer !in c.models then Err(InvalidOutput)
    else
      var record := Record(2, thread, c.version, decision.value.answer, decision.value);
      if !WellFormed(record) then Err(InvalidOutput)
      else Ok(Selection(c.models[decision.value.answer], record))
  }

  /** Restoring inverts selecting, and nothing else restores under that Thread and catalog. */
  lemma RestoreInvertsSelect(c: Catalog, thread: ThreadName, r: Record)
    requires thread != "" && c.version != "" && |c.models| >= 2 && "" !in c.models
    ensures Restore(c, thread, r).Ok? <==> exists d :: Select(c, thread, d).Ok? && Select(c, thread, d).value.record == r
    ensures forall d :: Select(c, thread, d).Ok? && Select(c, thread, d).value.record == r ==> Restore(c, thread, r) == Select(c, thread, d)
  {
    if Restore(c, thread, r).Ok? {
      var d := Some(r.decision);
      assert Select(c, thread, d).value.record == r;
    }
  }

  // ------------------------------------------------------------------ the store

  /** `holder` is the resolver that has the Thread's only permit. */
  datatype Entry = Entry(holder: Option<nat>, record: Option<Record>)

  datatype Phase = Waiting | Selecting | Finished(outcome: Result<Model, Error>) | Interrupted

  datatype Resolver = Resolver(catalog: Catalog, thread: ThreadName, phase: Phase)

  /** `committed` is a history variable: every record ever committed, in order. */
  datatype World = World(capacity: nat, entries: map<ThreadName, Entry>, resolvers: map<nat, Resolver>, committed: seq<Record>)

  datatype Step =
    | Request(id: nat, catalog: Catalog, thread: ThreadName)
    | Enter(id: nat)
    | Answer(id: nat, decision: Option<Decision>)
    | Interrupt(id: nat)

  predicate Enabled(w: World, s: Step) {
    match s
    case Request(id, _, _) => id !in w.resolvers
    case Enter(id) => id in w.resolvers && w.resolvers[id].phase.Waiting? && w.resolvers[id].thread in w.entries
                      && w.entries[w.resolvers[id].thread].holder.None?
    case Answer(id, _) => id in w.resolvers && w.resolvers[id].phase.Selecting? && w.resolvers[id].thread in w.entries
    case Interrupt(id) => id in w.resolvers && (w.resolvers[id].phase.Waiting? || w.resolvers[id].phase.Selecting?)
                          && w.resolvers[id].thread in w.entries
  }

  function ModelOf(c: Catalog, thread: ThreadName, r: Record): Result<Model, Error> {
    match Restore(c, thread, r)
    case Ok(s) => Ok(s.model)
    case Err(e) => Err(e)
  }

  function Moved(w: World, id: nat, phase: Phase): World
    requires id in w.resolvers
  {
    w.(resolvers := w.resolvers[id := w.resolvers[id].(phase := phase)])
  }

  function WithEntry(w: World, t: ThreadName, e: Entry): World {
    w.(entries := w.entries[t := e])
  }

  function Apply(w: World, s: Step): World
    requires Enabled(w, s)
  {
    match s
    case Request(id, c, t) =>
      if t == "" then w.(resolvers := w.resolvers[id := Resolver(c, t, Finished(Err(InvalidRequest)))])
      else if t !in w.entries && |w.entries| >= w.capacity then
        w.(resolvers := w.resolvers[id := Resolver(c, t, Finished(Err(CapacityExceeded)))])
      else
        var u := if t in w.entries then w else WithEntry(w, t, Entry(None, None));
        u.(resolvers := w.resolvers[id := Resolver(c, t, Waiting)])
    case Enter(id) =>
      var r := w.resolvers[id];
      var entry := w.entries[r.thread];
      if entry.record.Some? then Moved(w, id, Finished(ModelOf(r.catalog, r.thread, entry.record.value)))
      else Moved(WithEntry(w, r.thread, entry.(holder := Some(id))), id, Selecting)
    case Answer(id, decision) =>
      var r := w.resolvers[id];
      var freed := WithEntry(w, r.thread, w.entries[r.thread].(holder := None));
      var selected := Select(r.catalog, r.thread, decision);
      if selected.Err? then Moved(freed, id, Finished(Err(selected.error)))
      else if !WellFormed(selected.value.record) || selected.value.record.thread != r.thread then
        Moved(freed, id, Finished(Err(InvalidRequest)))
      else
        var record := selected.value.record;
        Moved(WithEntry(w, r.thread, Entry(None, Some(record))).(committed := w.committed + [record]), id,
              Finished(ModelOf(r.catalog, r.thread, record)))
    case Interrupt(id) =>
      var r := w.resolvers[id];
      var u := if r.phase.Selecting? then WithEntry(w, r.thread, w.entries[r.thread].(holder := None)) else w;
      Moved(u, id, Interrupted)
  }

  predicate Executable(w: World, steps: seq<Step>)
    decreases steps
  {
    steps == [] || (Enabled(w, steps[0]) && Executable(Apply(w, steps[0]), steps[1..]))
  }

  function Execute(w: World, steps: seq<Step>): World
    requires Executable(w, steps)
    decreases steps
  {
    if steps == [] then w else Execute(Apply(w, steps[0]), steps[1..])
  }

  predicate Initial(w: World) {
    w.capacity > 0 && w.entries == map[] && w.resolvers == map[] && w.committed == []
  }

  // ------------------------------------------------------------------ the invariant

  predicate ResolverHolds(w: World, id: nat, r: Resolver) {
    && (r.phase.Waiting? ==> r.thread in w.entries)
    && (r.phase.Selecting? ==> r.thread in w.entries && w.entries[r.thread] == Entry(Some(id), None))
    && (r.phase.Finished? && r.phase.outcome.Ok? ==>
          && r.thread in w.entries && w.entries[r.thread].record.Some?
          && ModelOf(r.catalog, r.thread, w.entries[r.thread].record.value) == r.phase.outcome)
  }

  predicate Committed(w: World, t: ThreadName, e: Entry) {
    && (e.record.Some? ==> e.record.value.thread == t && e.record.value in w.committed && e.holder.None?)
    && (e.holder.Some? ==> e.holder.value in w.resolvers && w.resolvers[e.holder.value].phase.Selecting?
                           && w.resolvers[e.holder.value].thread == t)
  }

  ghost predicate Inv(w: World) {
    && |w.entries| <= w.capacity
    && (forall id :: id in w.resolvers ==> ResolverHolds(w, id, w.resolvers[id]))
    && (forall t :: t in w.entries ==> Committed(w, t, w.entries[t]))
    && (forall r :: r in w.committed ==> r.thread in w.entries && w.entries[r.thread].record == Some(r))
    && (forall i, j :: 0 <= i < j < |w.committed| ==> w.committed[i].thread != w.committed[j].thread)
  }

  lemma AnswerKeepsInv(w: World, s: Step)
    requires Inv(w) && Enabled(w, s) && s.Answer?
    ensures Inv(Apply(w, s))
  {
    var r := w.resolvers[s.id];
    var u := Apply(w, s);
    assert ResolverHolds(w, s.id, r);
    assert u.entries.Keys == w.entries.Keys;
    assert |u.entries| == |u.entries.Keys| && |w.entries| == |w.entries.Keys|;
    forall c | c in w.committed ensures c.thread != r.thread {
      assert w.entries[c.thread].record == Some(c);
    }
    AnswerKeepsResolvers(w, s);
    AnswerKeepsEntries(w, s);
  }

  lemma AnswerKeepsResolvers(w: World, s: Step)
    requires Inv(w) && Enabled(w, s) && s.Answer?
    ensures var u := Apply(w, s); forall id :: id in u.resolvers ==> ResolverHolds(u, id, u.resolvers[id])
  {
    var u := Apply(w, s);
    assert ResolverHolds(w, s.id, w.resolvers[s.id]);
    forall id | id in u.resolvers ensures ResolverHolds(u, id, u.resolvers[id]) {
      if id != s.id { assert ResolverHolds(w, id, w.resolvers[id]); }
    }
  }

  lemma AnswerKeepsEntries(w: World, s: Step)
    requires Inv(w) && Enabled(w, s) && s.Answer?
    ensures var u := Apply(w, s); forall t :: t in u.entries ==> Committed(u, t, u.entries[t])
  {
    var u := Apply(w, s);
    assert ResolverHolds(w, s.id, w.resolvers[s.id]);
    forall t | t in u.entries ensures Committed(u, t, u.entries[t]) {
      assert Committed(w, t, w.entries[t]);
    }
  }

  lemma RequestKeepsInv(w: World, s: Step)
    requires Inv(w) && Enabled(w, s) && s.Request?
    ensures Inv(Apply(w, s))
  {
    var u := Apply(w, s);
    forall id | id in u.resolvers ensures ResolverHolds(u, id, u.resolvers[id]) {
      if id != s.id { assert ResolverHolds(w, id, w.resolvers[id]); }
    }
    forall t | t in u.entries ensures Committed(u, t, u.entries[t]) {
      if t in w.entries { assert Committed(w, t, w.entries[t]); }
    }
  }

  lemma StepKeepsInv(w: World, s: Step)
    requires Inv(w) && Enabled(w, s)
    ensures Inv(Apply(w, s))
  {
    if s.Request? {
      RequestKeepsInv(w, s);
    } else if s.Answer? {
      AnswerKeepsInv(w, s);
    } else {
      var u := Apply(w, s);
      var r := w.resolvers[s.id];
      assert u.entries.Keys == w.entries.Keys;
      assert |u.entries| == |u.entries.Keys| && |w.entries| == |w.entries.Keys|;
      forall id | id in u.resolvers ensures ResolverHolds(u, id, u.resolvers[id]) {
        assert ResolverHolds(w, id, w.resolvers[id]);
      }
      forall t | t in u.entries ensures Committed(u, t, u.entries[t]) {
        assert Committed(w, t, w.entries[t]);
      }
    }
  }

  lemma {:induction false} RunKeepsInv(w: World, steps: seq<Step>)
    requires Inv(w) && Executable(w, steps)
    ensures Inv(Execute(w, steps))
    decreases steps
  {
    if steps != [] {
      StepKeepsInv(w, steps[0]);
      RunKeepsInv(Apply(w, steps[0]), steps[1..]);
    }
  }

  // ------------------------------------------------------------------ what every run keeps

  predicate IsSelecting(w: World, id: nat) {
    id in w.resolvers && w.resolvers[id].phase.Selecting?
  }

  /** One record a Thread at most, and selections for one Thread never overlap. */
  lemma OneSelectionAThread(start: World, steps: seq<Step>)
    requires Initial(start) && Executable(start, steps)
    ensures var w := Execute(start, steps);
            && (forall i, j :: 0 <= i < j < |w.committed| ==> w.committed[i].thread != w.committed[j].thread)
            && (forall a, b :: IsSelecting(w, a) && IsSelecting(w, b) && w.resolvers[a].thread == w.resolvers[b].thread ==> a == b)
            && (forall a :: IsSelecting(w, a) ==> forall r :: r in w.committed ==> r.thread != w.resolvers[a].thread)
            && |w.entries| <= w.capacity
  {
    RunKeepsInv(start, steps);
    var w := Execute(start, steps);
    forall a, b | IsSelecting(w, a) && IsSelecting(w, b) && w.resolvers[a].thread == w.resolvers[b].thread ensures a == b {
      assert ResolverHolds(w, a, w.resolvers[a]) && ResolverHolds(w, b, w.resolvers[b]);
    }
    forall a, r | IsSelecting(w, a) && r in w.committed ensures r.thread != w.resolvers[a].thread {
      assert ResolverHolds(w, a, w.resolvers[a]);
    }
  }

  /** A successful resolve returns the model that the Thread's one committed record names. */
  lemma ResolvedModelIsTheRecordedOne(start: World, steps: seq<Step>, id: nat)
    requires Initial(start) && Executable(start, steps)
    requires var w := Execute(start, steps); id in w.resolvers && w.resolvers[id].phase.Finished? && w.resolvers[id].phase.outcome.Ok?
    ensures var w := Execute(start, steps);
            var r := w.resolvers[id];
            && r.thread in w.entries && w.entries[r.thread].record.Some?
            && var record := w.entries[r.thread].record.value;
               && record in w.committed && record.thread == r.thread && record.catalogVersion == r.catalog.version
               && record.profile in r.catalog.models && r.phase.outcome.value == r.catalog.models[record.profile]
  {
    RunKeepsInv(start, steps);
    var w := Execute(start, steps);
    var r := w.resolvers[id];
    assert ResolverHolds(w, id, r);
    assert Committed(w, r.thread, w.entries[r.thread]);
  }

  /** Entries never disappear and a committed record is never replaced. */
  lemma {:induction false} EntriesOnlyGrow(w: World, steps: seq<Step>)
    requires Inv(w) && Executable(w, steps)
    ensures var u := Execute(w, steps);
            && w.committed <= u.committed && u.capacity == w.capacity
            && forall t :: t in w.entries ==> t in u.entries && (w.entries[t].record.Some? ==> u.entries[t].record == w.entries[t].record)
    decreases steps
  {
    if steps != [] {
      StepKeepsInv(w, steps[0]);
      var u := Apply(w, steps[0]);
      if steps[0].Answer? {
        assert ResolverHolds(w, steps[0].id, w.resolvers[steps[0].id]);
      }
      EntriesOnlyGrow(u, steps[1..]);
    }
  }

  /** The permit is always free to the next in line once its holder succeeds, fails or is interrupted. */
  lemma NoPermitIsLost(start: World, steps: seq<Step>, t: ThreadName)
    requires Initial(start) && Executable(start, steps) && t in Execute(start, steps).entries
    ensures var w := Execute(start, steps);
            w.entries[t].holder.Some? ==> Enabled(w, Interrupt(w.entries[t].holder.value))
                                          && Apply(w, Interrupt(w.entries[t].holder.value)).entries[t].holder == None
  {
    RunKeepsInv(start, steps);
    var w := Execute(start, steps);
    assert Committed(w, t, w.entries[t]);
  }

  // ------------------------------------------------------------------ the store, one call at a time

  /** The entries of a store that nobody is using. */
  function Free(records: map<ThreadName, Option<Record>>): map<ThreadName, Entry> {
    map t | t in records :: Entry(None, records[t])
  }

  function Unused(capacity: nat, records: map<ThreadName, Option<Record>>): World {
    World(capacity, Free(records), map[], [])
  }

  lemma FreeUpdates(records: map<ThreadName, Option<Record>>, t: ThreadName, r: Option<Record>)
    ensures Free(records[t := r]) == Free(records)[t := Entry(None, r)]
    ensures |Free(records)| == |records|
  {
    assert Free(records).Keys == records.Keys;
    assert |Free(records).Keys| == |Free(records)| && |records.Keys| == |records|;
  }

  lemma OneStep(w: World, s1: Step)
    requires Enabled(w, s1)
    ensures Executable(w, [s1]) && Execute(w, [s1]) == Apply(w, s1)
  {
    assert [s1][1..] == [];
  }

  lemma TwoSteps(w: World, s1: Step, s2: Step)
    requires Enabled(w, s1) && Enabled(Apply(w, s1), s2)
    ensures Executable(w, [s1, s2]) && Execute(w, [s1, s2]) == Apply(Apply(w, s1), s2)
  {
    OneStep(Apply(w, s1), s2);
    assert [s1, s2][1..] == [s2];
  }

  lemma ThreeSteps(w: World, s1: Step, s2: Step, s3: Step)
    requires Enabled(w, s1) && Enabled(Apply(w, s1), s2) && Enabled(Apply(Apply(w, s1), s2), s3)
    ensures Executable(w, [s1, s2, s3]) && Execute(w, [s1, s2, s3]) == Apply(Apply(Apply(w, s1), s2), s3)
  {
    TwoSteps(Apply(w, s1), s2, s3);
    assert [s1, s2, s3][1..] == [s2, s3];
  }

  /** A store of records, in which a resolve runs by itself. */
  class MemoryStore {
    const capacity: nat
    var records: map<ThreadName, Option<Record>>

    constructor (capacity: nat)
      requires capacity > 0
      ensures this.capacity == capacity && records == map[]
    {
      this.capacity := capacity;
      records := map[];
    }

    /** The committed record if there is one, else the outcome of selecting. */
    method GetOrCreate(thread: ThreadName, selected: Result<Record, Error>) returns (r: Result<Record, Error>)
      requires |records| <= capacity && "" !in records
      modifies this`records
      ensures |records| <= capacity && "" !in records
      ensures forall t :: t in old(records) ==> t in records && (old(records)[t].Some? || t != thread ==> records[t] == old(records)[t])
      ensures thread == "" ==> r == Err(InvalidRequest) && records == old(records)
      ensures thread != "" && thread !in old(records) && |old(records)| >= capacity ==> r == Err(CapacityExceeded) && records == old(records)
      ensures thread in old(records) && old(records)[thread].Some? ==> r == Ok(old(records)[thread].value) && records == old(records)
      ensures thread != "" && (thread in old(records) || |old(records)| < capacity) && !(thread in old(records) && old(records)[thread].Some?) ==>
                var commits := selected.Ok? && WellFormed(selected.value) && selected.value.thread == thread;
                && records == old(records)[thread := if commits then Some(selected.value) else None]
                && r == (if selected.Err? || commits then selected else Err(InvalidRequest))
    {
      if thread == "" { return Err(InvalidRequest); }
      if thread !in records {
        if |records| >= capacity { return Err(CapacityExceeded); }
        records := records[thread := None];
      }
      if records[thread].Some? { return Ok(records[thread].value); }
      if selected.Err? { return Err(selected.error); }
      if !WellFormed(selected.value) || selected.value.thread != thread { return Err(InvalidRequest); }
      records := records[thread := Some(selected.value)];
      r := Ok(selected.value);
    }

    /**
     * A whole resolve with one catalog is a run of the many-resolver store: it asks, enters, and
     * answers if it had to select, with the same outcome and the same records left behind.
     */
    method Resolve(catalog: Catalog, thread: ThreadName, decision: Option<Decision>) returns (outcome: Result<Model, Error>, ghost steps: seq<Step>)
      requires |records| <= capacity && "" !in records
      modifies this`records
      ensures |records| <= capacity && "" !in records
      ensures var start := Unused(capacity, old(records));
              && Executable(start, steps)
              && Execute(start, steps).entries == Free(records)
              && 0 in Execute(start, steps).resolvers
              && Execute(start, steps).resolvers[0] == Resolver(catalog, thread, Finished(outcome))
      ensures steps == [Request(0, catalog, thread)]
              || steps == [Request(0, catalog, thread), Enter(0)]
              || steps == [Request(0, catalog, thread), Enter(0), Answer(0, decision)]
    {
      var selection := Select(catalog, thread, decision);
      var selected := if selection.Ok? then Ok(selection.value.record) else Err(selection.error);
      var record := GetOrCreate(thread, selected);
      outcome := if record.Ok? then ModelOf(catalog, thread, record.value) else Err(record.error);
      ghost var start := Unused(capacity, old(records));
      FreeUpdates(old(records), thread, None);
      if thread == "" || (thread !in old(records) && |old(records)| >= capacity) {
        steps := [Request(0, catalog, thread)];
        OneStep(start, Request(0, catalog, thread));
      } else if thread in old(records) && old(records)[thread].Some? {
        steps := [Request(0, catalog, thread), Enter(0)];
        TwoSteps(start, Request(0, catalog, thread), Enter(0));
      } else {
        steps := [Request(0, catalog, thread), Enter(0), Answer(0, decision)];
        SelectingRuns(start, old(records), catalog, thread, decision);
        FreeUpdates(old(records), thread, records[thread]);
        ThreeSteps(start, Request(0, catalog, thread), Enter(0), Answer(0, decision));
      }
    }
  }

  /** A resolve that has to select is free to enter and, once answered, leaves the entry free. */
  lemma SelectingRuns(start: World, records: map<ThreadName, Option<Record>>, c: Catalog, t: ThreadName, decision: Option<Decision>)
    requires start == Unused(start.capacity, records) && t != "" && (t in records ==> records[t].None?)
    requires t in records || |records| < start.capacity
    ensures Enabled(start, Request(0, c, t))
    ensures var w1 := Apply(start, Request(0, c, t));
            && Enabled(w1, Enter(0))
            && var w2 := Apply(w1, Enter(0));
               && Enabled(w2, Answer(0, decision))
               && var w3 := Apply(w2, Answer(0, decision));
                  var selected := Select(c, t, decision);
                  && w3.entries == Free(records)[t := Entry(None, if selected.Ok? then Some(selected.value.record) else None)]
                  && w3.resolvers == map[0 := Resolver(c, t, Finished(if selected.Ok? then ModelOf(c, t, selected.value.record) else Err(selected.error)))]
  {
    FreeUpdates(records, t, None);
    var w1 := Apply(start, Request(0, c, t));
    assert w1.entries == Free(records)[t := Entry(None, None)];
    var w2 := Apply(w1, Enter(0));
    assert w2.entries == Free(records)[t := Entry(Some(0), None)];
  }
}
