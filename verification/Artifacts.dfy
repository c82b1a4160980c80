/**
 * Write-once publication of a trip revision (examples/travel-planner/src/artifacts.ts): one
 * parentless branch per revision on a Git remote that refuses to move an existing branch, and
 * whose answer to a push can be lost, or come long before the push itself takes effect.
 */
module Artifacts {
  import opened Common
  import opened Decimal

  const MAX_FILE_BYTES := 512 * 1024

  datatype Trip = Trip(id: string, revision: nat, details: string, published: Option<string>)

  /** The text of trip.json: every field of the trip except where it was published. */
  datatype Snapshot = Snapshot(id: string, revision: nat, details: string)

  /** A commit without parents. Its object id stands for all of its content. */
  datatype Commit = Commit(trip: Snapshot, page: string, timestamp: nat)

  datatype Ref = Ref(repository: string, branch: string)

  datatype Outcome = Success(commit: Commit) | Conflict | Failed

  /** Rendering and measuring, which the protocol only calls. */
  datatype Config = Config(render: Trip -> string, bytes: Snapshot -> nat, pageBytes: string -> nat)

  function EncodeTrip(t: Trip): Snapshot {
    Snapshot(t.id, t.revision, t.details)
  }

  function DecodeTrip(s: Snapshot): Trip {
    Trip(s.id, s.revision, s.details, None)
  }

  function BranchOf(revision: nat): string {
    "revision-" + Numeral(revision)
  }

  function RefOf(id: string, revision: nat): Ref {
    Ref("trip-" + id, BranchOf(revision))
  }

  function Target(t: Trip): Ref {
    RefOf(t.id, t.revision)
  }

  predicate Fits(c: Config, trip: Snapshot, page: string) {
    c.bytes(trip) <= MAX_FILE_BYTES && c.pageBytes(page) <= MAX_FILE_BYTES
  }

  lemma RefsDiffer(id: string, revision: nat, id': string, revision': nat)
    requires RefOf(id, revision) == RefOf(id', revision')
    ensures id == id' && revision == revision'
  {
    assert id == ("trip-" + id)[5..] && id' == ("trip-" + id')[5..];
    assert Numeral(revision) == BranchOf(revision)[9..] && Numeral(revision') == BranchOf(revision')[9..];
    NumeralsDiffer(revision, revision');
  }

  /** Re-encoding what was read back is the text that was stored. */
  lemma EncodingRoundTrips(t: Trip, s: Snapshot)
    ensures EncodeTrip(DecodeTrip(s)) == s
    ensures DecodeTrip(EncodeTrip(t)) == t.(published := None)
    ensures EncodeTrip(t) == s <==> DecodeTrip(s) == t.(published := None)
  {
  }

  // ------------------------------------------------------------------ reading

  datatype Reading = NoBranch | Found(trip: Trip, commit: Commit) | Mismatch | Invalid

  type Branches = map<Ref, Commit>

  /** What a read makes of a clone, given the object id the listing showed. */
  function Cloned(c: Config, branches: Branches, id: string, revision: nat, listed: Commit): Reading {
    var ref := RefOf(id, revision);
    if ref !in branches then Invalid
    else
      var commit := branches[ref];
      if commit != listed then Mismatch
      else if c.bytes(commit.trip) > MAX_FILE_BYTES then Invalid
      else if commit.trip.id != id || commit.trip.revision != revision then Invalid
      else if c.pageBytes(commit.page) > MAX_FILE_BYTES then Invalid
      else Found(DecodeTrip(commit.trip), commit)
  }

  /** What a publisher concludes from a completed read of its own branch. */
  function Compared(t: Trip, r: Reading): Outcome
    requires !r.NoBranch?
  {
    match r
    case Found(trip, commit) => if EncodeTrip(trip) != EncodeTrip(t) then Conflict else Success(commit)
    case Mismatch => Conflict
    case Invalid => Failed
  }

  /** A push without force sets an absent branch and leaves any other alone. */
  function Landed(branches: Branches, ref: Ref, commit: Commit): Branches {
    if ref in branches then branches else branches[ref := commit]
  }

  // ------------------------------------------------------------------ many publishers

  datatype Phase =
    | Starting
    | Creating
    | Listing
    | Cloning(listed: Commit)
    | Preparing
    | Prepared(commit: Commit)
    | Pushing(commit: Commit)
    | Relisting
    | Recloning(listed: Commit)
    | Done(outcome: Outcome)

  datatype Publisher = Publisher(trip: Trip, phase: Phase)

  datatype Push = Push(ref: Ref, commit: Commit)

  /** A push whose sender has given up stays in `inflight` and may still take effect. */
  datatype World = World(
    now: nat,
    repositories: set<string>,
    branches: Branches,
    inflight: set<Push>,
    publishers: map<nat, Publisher>)

  datatype Step =
    | Tick(later: nat)
    | Begin(publisher: nat, trip: Trip)
    | GetRepository(publisher: nat)
    | CreateRepository(publisher: nat)
    | ListRefs(publisher: nat)
    | Clone(publisher: nat)
    | CommitFiles(publisher: nat)
    | SendPush(publisher: nat)
    | Land(push: Push)
    | Answer(publisher: nat, accepted: bool)
    | LoseRepositoryReply(publisher: nat)
    | GiveUp(publisher: nat)

  predicate At(w: World, p: nat) {
    p in w.publishers && !w.publishers[p].phase.Done?
  }

  predicate Enabled(w: World, s: Step) {
    match s
    case Tick(later) => w.now <= later
    case Begin(p, _) => p !in w.publishers
    case GetRepository(p) => At(w, p) && w.publishers[p].phase.Starting?
    case CreateRepository(p) => At(w, p) && w.publishers[p].phase.Creating?
    case LoseRepositoryReply(p) => At(w, p) && w.publishers[p].phase.Creating?
    case ListRefs(p) => At(w, p) && (w.publishers[p].phase.Listing? || w.publishers[p].phase.Relisting?)
    case Clone(p) => At(w, p) && (w.publishers[p].phase.Cloning? || w.publishers[p].phase.Recloning?)
    case CommitFiles(p) => At(w, p) && w.publishers[p].phase.Preparing?
    case SendPush(p) => At(w, p) && w.publishers[p].phase.Prepared?
    case Land(push) => push in w.inflight
    case Answer(p, accepted) =>
      && At(w, p) && w.publishers[p].phase.Pushing?
      && (accepted ==> Target(w.publishers[p].trip) in w.branches
                       && w.branches[Target(w.publishers[p].trip)] == w.publishers[p].phase.commit)
    case GiveUp(p) => At(w, p)
  }

  function Moved(w: World, p: nat, phase: Phase): World
    requires p in w.publishers
  {
    w.(publishers := w.publishers[p := w.publishers[p].(phase := phase)])
  }

  function Apply(c: Config, w: World, s: Step): World
    requires Enabled(w, s)
  {
    match s
    case Tick(later) => w.(now := later)
    case Begin(p, trip) =>
      var phase := if Fits(c, EncodeTrip(trip), c.render(trip)) then Starting else Done(Failed);
      w.(publishers := w.publishers[p := Publisher(trip, phase)])
    case GetRepository(p) =>
      Moved(w, p, if "trip-" + w.publishers[p].trip.id in w.repositories then Listing else Creating)
    case CreateRepository(p) =>
      // An existing repository is as good as a created one.
      Moved(w.(repositories := w.repositories + {"trip-" + w.publishers[p].trip.id}), p, Listing)
    case LoseRepositoryReply(p) =>
      Moved(w.(repositories := w.repositories + {"trip-" + w.publishers[p].trip.id}), p, Done(Failed))
    case ListRefs(p) =>
      var ref := Target(w.publishers[p].trip);
      var first := w.publishers[p].phase.Listing?;
      Moved(w, p,
        if ref in w.branches then (if first then Cloning(w.branches[ref]) else Recloning(w.branches[ref]))
        else if first then Preparing
        else Done(Failed))
    case Clone(p) =>
      var t := w.publishers[p].trip;
      Moved(w, p, Done(Compared(t, Cloned(c, w.branches, t.id, t.revision, w.publishers[p].phase.listed))))
    case CommitFiles(p) =>
      var t := w.publishers[p].trip;
      Moved(w, p, Prepared(Commit(EncodeTrip(t), c.render(t), w.now / 1000)))
    case SendPush(p) =>
      var commit := w.publishers[p].phase.commit;
      Moved(w.(inflight := w.inflight + {Push(Target(w.publishers[p].trip), commit)}), p, Pushing(commit))
    case Land(push) =>
      w.(branches := Landed(w.branches, push.ref, push.commit), inflight := w.inflight - {push})
    case Answer(p, _) => Moved(w, p, Relisting)
    case GiveUp(p) => Moved(w, p, Done(Failed))
  }

  predicate Initial(w: World) {
    w.branches == map[] && w.inflight == {} && w.publishers == map[]
  }

  predicate Executable(c: Config, w: World, steps: seq<Step>)
    decreases steps
  {
    steps == [] || (Enabled(w, steps[0]) && Executable(c, Apply(c, w, steps[0]), steps[1..]))
  }

  function Execute(c: Config, w: World, steps: seq<Step>): World
    requires Executable(c, w, steps)
    decreases steps
  {
    if steps == [] then w else Execute(c, Apply(c, w, steps[0]), steps[1..])
  }

  // ------------------------------------------------------------------ the invariant

  /** A commit some publisher made for this very branch, small enough to be read back. */
  predicate Proper(c: Config, ref: Ref, commit: Commit) {
    && ref == RefOf(commit.trip.id, commit.trip.revision)
    && Fits(c, commit.trip, commit.page)
  }

  predicate PhaseHolds(c: Config, w: World, t: Trip, phase: Phase) {
    && (phase.Cloning? || phase.Recloning? ==> Target(t) in w.branches && w.branches[Target(t)] == phase.listed)
    && (phase.Prepared? || phase.Pushing? ==> Proper(c, Target(t), phase.commit) && phase.commit.trip == EncodeTrip(t))
    && (!phase.Done? ==> Fits(c, EncodeTrip(t), c.render(t)))
    && (phase == Done(Conflict) ==> Target(t) in w.branches && w.branches[Target(t)].trip != EncodeTrip(t))
    && (phase.Done? && phase.outcome.Success? ==>
          Target(t) in w.branches && w.branches[Target(t)] == phase.outcome.commit && phase.outcome.commit.trip == EncodeTrip(t))
  }

  predicate Inv(c: Config, w: World) {
    && (forall r :: r in w.branches ==> Proper(c, r, w.branches[r]))
    && (forall push :: push in w.inflight ==> Proper(c, push.ref, push.commit))
    && (forall p :: p in w.publishers ==> PhaseHolds(c, w, w.publishers[p].trip, w.publishers[p].phase))
  }

  /** In a proper world a clone always finds what the listing showed, whole and readable. */
  lemma CloneFindsTheListedCommit(c: Config, w: World, t: Trip)
    requires Inv(c, w) && Target(t) in w.branches
    ensures var commit := w.branches[Target(t)];
            Cloned(c, w.branches, t.id, t.revision, commit) == Found(DecodeTrip(commit.trip), commit)
  {
    var commit := w.branches[Target(t)];
    RefsDiffer(t.id, t.revision, commit.trip.id, commit.trip.revision);
  }

  /** The publisher that a step moves is well placed afterwards. */
  lemma MovedPublisherHolds(c: Config, w: World, s: Step, p: nat)
    requires Inv(c, w) && Enabled(w, s) && p in Apply(c, w, s).publishers
    requires p !in w.publishers || Apply(c, w, s).publishers[p] != w.publishers[p]
    ensures var u := Apply(c, w, s); PhaseHolds(c, u, u.publishers[p].trip, u.publishers[p].phase)
  {
    if s.Clone? {
      CloneFindsTheListedCommit(c, w, w.publishers[s.publisher].trip);
    }
  }

  lemma StepKeepsRemote(c: Config, w: World, s: Step)
    requires Inv(c, w) && Enabled(w, s)
    ensures var u := Apply(c, w, s);
            && (forall r :: r in w.branches ==> r in u.branches && u.branches[r] == w.branches[r])
            && (forall r :: r in u.branches ==> Proper(c, r, u.branches[r]))
            && (forall push :: push in u.inflight ==> Proper(c, push.ref, push.commit))
  {
    if s.SendPush? { assert PhaseHolds(c, w, w.publishers[s.publisher].trip, w.publishers[s.publisher].phase); }
  }

  lemma StepKeepsInv(c: Config, w: World, s: Step)
    requires Inv(c, w) && Enabled(w, s)
    ensures Inv(c, Apply(c, w, s))
  {
    StepKeepsRemote(c, w, s);
    var u := Apply(c, w, s);
    forall p | p in u.publishers ensures PhaseHolds(c, u, u.publishers[p].trip, u.publishers[p].phase) {
      if p in w.publishers && u.publishers[p] == w.publishers[p] {
        assert PhaseHolds(c, w, w.publishers[p].trip, w.publishers[p].phase);
      } else {
        MovedPublisherHolds(c, w, s, p);
      }
    }
  }

  lemma {:induction false} RunKeepsInv(c: Config, w: World, steps: seq<Step>)
    requires Inv(c, w) && Executable(c, w, steps)
    ensures Inv(c, Execute(c, w, steps))
    decreases steps
  {
    if steps != [] {
      StepKeepsInv(c, w, steps[0]);
      RunKeepsInv(c, Apply(c, w, steps[0]), steps[1..]);
    }
  }

  // ------------------------------------------------------------------ what every run keeps

  /** Once set, a branch never changes and a finished publisher's answer stands. */
  lemma {:induction false} PublicationIsImmutable(c: Config, w: World, steps: seq<Step>, ref: Ref, p: nat)
    requires Executable(c, w, steps)
    ensures ref in w.branches ==> ref in Execute(c, w, steps).branches && Execute(c, w, steps).branches[ref] == w.branches[ref]
    ensures p in w.publishers && w.publishers[p].phase.Done? ==>
              p in Execute(c, w, steps).publishers && Execute(c, w, steps).publishers[p] == w.publishers[p]
    decreases steps
  {
    if steps != [] { PublicationIsImmutable(c, Apply(c, w, steps[0]), steps[1..], ref, p); }
  }

  function OutcomeOf(w: World, p: nat): Option<Outcome> {
    if p in w.publishers && w.publishers[p].phase.Done? then Some(w.publishers[p].phase.outcome) else None
  }

  /** Every success names the published commit, and that commit holds the caller's own trip. */
  lemma SuccessIsTheCallersTrip(c: Config, start: World, steps: seq<Step>, p: nat)
    requires Initial(start) && Executable(c, start, steps)
    ensures var w := Execute(c, start, steps);
            var outcome := OutcomeOf(w, p);
            && (outcome.Some? && outcome.value.Success? ==>
                  var t := w.publishers[p].trip;
                  && Target(t) in w.branches && w.branches[Target(t)] == outcome.value.commit
                  && outcome.value.commit.trip == EncodeTrip(t))
            && (outcome == Some(Conflict) ==>
                  var t := w.publishers[p].trip;
                  && Target(t) in w.branches && w.branches[Target(t)].trip != EncodeTrip(t))
  {
    RunKeepsInv(c, start, steps);
  }

  /** Publishers of one revision that succeed agree on the commit, so on the content. */
  lemma SuccessesAgree(c: Config, start: World, steps: seq<Step>, p: nat, q: nat)
    requires Initial(start) && Executable(c, start, steps)
    requires var w := Execute(c, start, steps);
             && OutcomeOf(w, p).Some? && OutcomeOf(w, p).value.Success?
             && OutcomeOf(w, q).Some? && OutcomeOf(w, q).value.Success?
             && w.publishers[p].trip.id == w.publishers[q].trip.id
             && w.publishers[p].trip.revision == w.publishers[q].trip.revision
    ensures var w := Execute(c, start, steps);
            && OutcomeOf(w, p) == OutcomeOf(w, q)
            && EncodeTrip(w.publishers[p].trip) == EncodeTrip(w.publishers[q].trip)
  {
    RunKeepsInv(c, start, steps);
    assert PhaseHolds(c, Execute(c, start, steps), Execute(c, start, steps).publishers[p].trip, Execute(c, start, steps).publishers[p].phase);
  }

  /**
   * Whatever other publishers do between a reader's listing and its clone, the clone finds the
   * listed commit, whole and readable.
   */
  lemma CloneFindsWhatWasListed(c: Config, start: World, before: seq<Step>, between: seq<Step>, t: Trip)
    requires Initial(start) && Executable(c, start, before) && Executable(c, Execute(c, start, before), between)
    requires Target(t) in Execute(c, start, before).branches
    ensures var listed := Execute(c, start, before).branches[Target(t)];
            Cloned(c, Execute(c, Execute(c, start, before), between).branches, t.id, t.revision, listed) == Found(DecodeTrip(listed.trip), listed)
  {
    RunKeepsInv(c, start, before);
    var w := Execute(c, start, before);
    RunKeepsInv(c, w, between);
    PublicationIsImmutable(c, w, between, Target(t), 0);
    CloneFindsTheListedCommit(c, Execute(c, w, between), t);
  }

  /**
   * Reconciliation: once a branch exists, however that came about, a retry that is not cut short
   * answers with that very commit when the content is the caller's, and with a conflict otherwise.
   */
  lemma RetryReconciles(c: Config, start: World, steps: seq<Step>, p: nat, t: Trip)
    requires Initial(start) && Executable(c, start, steps)
    requires var w := Execute(c, start, steps); p !in w.publishers && Target(t) in w.branches && "trip-" + t.id in w.repositories
    requires Fits(c, EncodeTrip(t), c.render(t))
    ensures var w := Execute(c, start, steps);
            var retry := [Begin(p, t), GetRepository(p), ListRefs(p), Clone(p)];
            && Executable(c, w, retry)
            && OutcomeOf(Execute(c, w, retry), p)
               == Some(if w.branches[Target(t)].trip == EncodeTrip(t) then Success(w.branches[Target(t)]) else Conflict)
  {
    RunKeepsInv(c, start, steps);
    var w := Execute(c, start, steps);
    var retry := [Begin(p, t), GetRepository(p), ListRefs(p), Clone(p)];
    var w1 := Apply(c, w, Begin(p, t));
    var w2 := Apply(c, w1, GetRepository(p));
    var w3 := Apply(c, w2, ListRefs(p));
    var w4 := Apply(c, w3, Clone(p));
    CloneFindsTheListedCommit(c, w, t);
    EncodingRoundTrips(t, w.branches[Target(t)].trip);
    assert w4.publishers[p].phase == Done(Compared(t, Found(DecodeTrip(w.branches[Target(t)].trip), w.branches[Target(t)])));
    FourSteps(c, w, Begin(p, t), GetRepository(p), ListRefs(p), Clone(p));
  }

  lemma FourSteps(c: Config, w: World, s1: Step, s2: Step, s3: Step, s4: Step)
    requires Enabled(w, s1)
    requires Enabled(Apply(c, w, s1), s2)
    requires Enabled(Apply(c, Apply(c, w, s1), s2), s3)
    requires Enabled(Apply(c, Apply(c, Apply(c, w, s1), s2), s3), s4)
    ensures Executable(c, w, [s1, s2, s3, s4])
    ensures Execute(c, w, [s1, s2, s3, s4]) == Apply(c, Apply(c, Apply(c, Apply(c, w, s1), s2), s3), s4)
  {
    var u := Apply(c, Apply(c, w, s1), s2);
    assert [s3, s4][1..] == [s4] && [s4][1..] == [];
    assert Executable(c, Apply(c, u, s3), [s4]);
    assert Executable(c, u, [s3, s4]);
    assert [s1, s2, s3, s4][1..] == [s2, s3, s4] && [s2, s3, s4][1..] == [s3, s4];
    assert Executable(c, Apply(c, w, s1), [s2, s3, s4]);
    assert Execute(c, u, [s3, s4]) == Execute(c, Apply(c, u, s3), [s4]);
    assert Execute(c, Apply(c, u, s3), [s4]) == Apply(c, Apply(c, u, s3), s4);
    assert Execute(c, Apply(c, w, s1), [s2, s3, s4]) == Execute(c, u, [s3, s4]);
  }

  // ------------------------------------------------------------------ one publisher, call by call

  /** What the network does to one call: which requests fail, and what becomes of its push. */
  datatype Weather = Weather(
    repository: bool,
    created: bool,           // the answer to creating a repository arrives
    firstRead: bool,
    rival: Option<Commit>,   // what another publisher's push lands meanwhile
    lands: bool,
    answers: bool,
    secondRead: bool)

  /** The world of one call: itself, and at most one rival push on its way. */
  function Lone(branches: Branches, repositories: set<string>, now: nat, t: Trip, rival: Option<Commit>): World {
    World(now, repositories, branches, if rival.Some? then {Push(Target(t), rival.value)} else {}, map[])
  }

  /** The steps taken so far lead from the start to this world. */
  ghost predicate Walked(c: Config, start: World, steps: seq<Step>, w: World) {
    Executable(c, start, steps) && Execute(c, start, steps) == w
  }

  lemma {:induction false} Walk(c: Config, start: World, steps: seq<Step>, w: World, s: Step)
    requires Walked(c, start, steps, w) && Enabled(w, s)
    ensures Walked(c, start, steps + [s], Apply(c, w, s))
    decreases steps
  {
    if steps == [] {
      assert steps + [s] == [s] && [s][1..] == [];
      assert Executable(c, Apply(c, w, s), [s][1..]);
    } else {
      assert (steps + [s])[1..] == steps[1..] + [s];
      Walk(c, Apply(c, start, steps[0]), steps[1..], w, s);
    }
  }

  /** The only publisher of a lone call, with its trip. */
  predicate Publishing(w: World, t: Trip) {
    0 in w.publishers && w.publishers[0].trip == t && !w.publishers[0].phase.Done?
  }

  /** The remote as one call sees it. */
  class Remote {
    var branches: Branches
    var repositories: set<string>
    const config: Config

    constructor (config: Config)
      ensures branches == map[] && repositories == {} && this.config == config
    {
      branches, repositories := map[], {};
      this.config := config;
    }

    /** List the branches, then clone the one that was listed. */
    method Read(t: Trip, ghost start: World, ghost before: seq<Step>, ghost w: World) returns (r: Reading, ghost steps: seq<Step>, ghost u: World)
      requires Walked(config, start, before, w) && w.branches == branches && Publishing(w, t)
      requires w.publishers[0].phase.Listing? || w.publishers[0].phase.Relisting?
      ensures Walked(config, start, steps, u)
      ensures r.NoBranch? <==> Target(t) !in branches
      ensures r.NoBranch? ==> u == Moved(w, 0, if w.publishers[0].phase.Listing? then Preparing else Done(Failed))
      ensures !r.NoBranch? ==> u == Moved(w, 0, Done(Compared(t, r))) && r == Cloned(config, branches, t.id, t.revision, branches[Target(t)])
    {
      Walk(config, start, before, w, ListRefs(0));
      steps, u := before + [ListRefs(0)], Apply(config, w, ListRefs(0));
      var ref := RefOf(t.id, t.revision);
      if ref !in branches { return NoBranch, steps, u; }
      var listed := branches[ref];
      r := Cloned(config, branches, t.id, t.revision, listed);
      Walk(config, start, steps, u, Clone(0));
      steps, u := steps + [Clone(0)], Apply(config, u, Clone(0));
    }

    /** Commit and push, while a rival may land first and the answer may be lost. */
    method PushRevision(t: Trip, now: nat, weather: Weather, ghost start: World, ghost before: seq<Step>, ghost w: World)
      returns (accepted: bool, ghost steps: seq<Step>, ghost u: World)
      requires Walked(config, start, before, w) && w.branches == branches && Publishing(w, t) && w.publishers[0].phase.Preparing?
      requires w.now == now && w.inflight == (if weather.rival.Some? then {Push(Target(t), weather.rival.value)} else {})
      modifies this`branches
      ensures Walked(config, start, steps, u) && u.branches == branches
      ensures Publishing(u, t) && u.publishers[0].phase == Relisting
      ensures Grown(old(branches), t, now, weather.rival)
      ensures accepted ==> Target(t) in branches && branches[Target(t)] == Commit(EncodeTrip(t), config.render(t), now / 1000)
      ensures Target(t) !in old(branches) && weather.rival.None? && weather.lands ==>
                Target(t) in branches && branches[Target(t)] == Commit(EncodeTrip(t), config.render(t), now / 1000)
    {
      steps, u := before, w;
      var commit := Commit(EncodeTrip(t), config.render(t), now / 1000);
      Walk(config, start, steps, u, CommitFiles(0));
      steps, u := steps + [CommitFiles(0)], Apply(config, u, CommitFiles(0));
      if weather.rival.Some? {
        var rival := Push(Target(t), weather.rival.value);
        Walk(config, start, steps, u, Land(rival));
        steps, u := steps + [Land(rival)], Apply(config, u, Land(rival));
        branches := Landed(branches, Target(t), weather.rival.value);
      }
      Walk(config, start, steps, u, SendPush(0));
      steps, u := steps + [SendPush(0)], Apply(config, u, SendPush(0));
      if weather.lands {
        Walk(config, start, steps, u, Land(Push(Target(t), commit)));
        steps, u := steps + [Land(Push(Target(t), commit))], Apply(config, u, Land(Push(Target(t), commit)));
        if Target(t) !in branches { branches := branches[Target(t) := commit]; }
      }
      accepted := weather.answers && Target(t) in branches && branches[Target(t)] == commit;
      Walk(config, start, steps, u, Answer(0, accepted));
      steps, u := steps + [Answer(0, accepted)], Apply(config, u, Answer(0, accepted));
    }

    /**
     * A whole call is one run of the many-publisher protocol: it answers what that run answers
     * and leaves the branches that run leaves.
     */
    method Publish(t: Trip, now: nat, weather: Weather) returns (outcome: Outcome, ghost steps: seq<Step>)
      modifies this`branches, this`repositories
      ensures var start := Lone(old(branches), old(repositories), now, t, weather.rival);
              && Executable(config, start, steps)
              && Execute(config, start, steps).branches == branches
              && OutcomeOf(Execute(config, start, steps), 0) == Some(outcome)
      ensures Grown(old(branches), t, now, weather.rival)
      ensures outcome.Success? ==> Target(t) in branches && branches[Target(t)] == outcome.commit && outcome.commit.trip == EncodeTrip(t)
      ensures weather == Weather(true, true, true, None, true, weather.answers, true)
              && Fits(config, EncodeTrip(t), config.render(t)) && Target(t) !in old(branches) ==>
                outcome == Success(Commit(EncodeTrip(t), config.render(t), now / 1000))
    {
      ghost var start := Lone(branches, repositories, now, t, weather.rival);
      ghost var w := start;
      steps := [];
      Walk(config, start, steps, w, Begin(0, t));
      steps, w := steps + [Begin(0, t)], Apply(config, w, Begin(0, t));
      var snapshot, page := EncodeTrip(t), config.render(t);
      if config.bytes(snapshot) > MAX_FILE_BYTES || config.pageBytes(page) > MAX_FILE_BYTES { return Failed, steps; }
      if !weather.repository {
        Walk(config, start, steps, w, GiveUp(0));
        return Failed, steps + [GiveUp(0)];
      }
      Walk(config, start, steps, w, GetRepository(0));
      steps, w := steps + [GetRepository(0)], Apply(config, w, GetRepository(0));
      if "trip-" + t.id !in repositories {
        repositories := repositories + {"trip-" + t.id};
        var step := if weather.created then CreateRepository(0) else LoseRepositoryReply(0);
        Walk(config, start, steps, w, step);
        steps, w := steps + [step], Apply(config, w, step);
        if !weather.created { return Failed, steps; }
      }
      if !weather.firstRead {
        Walk(config, start, steps, w, GiveUp(0));
        return Failed, steps + [GiveUp(0)];
      }
      outcome, steps, w := Reconcile(t, now, weather, start, steps, w);
    }

    /** Answer with what is there; if nothing is, push and answer with what is there then. */
    method Reconcile(t: Trip, now: nat, weather: Weather, ghost start: World, ghost before: seq<Step>, ghost w: World)
      returns (outcome: Outcome, ghost steps: seq<Step>, ghost u: World)
      requires Walked(config, start, before, w) && w.branches == branches && Publishing(w, t) && w.publishers[0].phase.Listing?
      requires w.now == now && w.inflight == (if weather.rival.Some? then {Push(Target(t), weather.rival.value)} else {})
      modifies this`branches
      ensures Walked(config, start, steps, u) && u.branches == branches && OutcomeOf(u, 0) == Some(outcome)
      ensures Grown(old(branches), t, now, weather.rival)
      ensures Fits(config, EncodeTrip(t), config.render(t)) && Target(t) !in old(branches)
              && weather.rival.None? && weather.lands && weather.secondRead ==>
                outcome == Success(Commit(EncodeTrip(t), config.render(t), now / 1000))
      ensures outcome.Success? ==> Target(t) in branches && branches[Target(t)] == outcome.commit && outcome.commit.trip == EncodeTrip(t)
    {
      var previous: Reading;
      previous, steps, u := Read(t, start, before, w);
      if !previous.NoBranch? { return Compared(t, previous), steps, u; }
      var accepted: bool;
      accepted, steps, u := PushRevision(t, now, weather, start, steps, u);
      if !weather.secondRead {
        Walk(config, start, steps, u, GiveUp(0));
        return Failed, steps + [GiveUp(0)], Apply(config, u, GiveUp(0));
      }
      var stored: Reading;
      stored, steps, u := Read(t, start, steps, u);
      outcome := if stored.NoBranch? then Failed else Compared(t, stored);
    }

    /** Branches only grow, by the call's own commit or its rival's. */
    ghost predicate Grown(before: Branches, t: Trip, now: nat, rival: Option<Commit>)
      reads this
    {
      && (forall r :: r in before ==> r in branches && branches[r] == before[r])
      && (forall r :: r in branches && r !in before ==> r == Target(t))
      && (Target(t) in branches && Target(t) !in before ==>
            branches[Target(t)] == Commit(EncodeTrip(t), config.render(t), now / 1000) || Some(branches[Target(t)]) == rival)
    }
  }
}
