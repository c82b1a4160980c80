/**
 * Publishing with temporary manifests (scripts/release-publish.ts): every manifest is replaced
 * around the publication, one inside the other, and put back on every exit, though any write may
 * fail half way and the publication may fail or be interrupted.
 */
module ReleasePublish {
  import opened Common

  type Files = map<string, string>

  /** One temporary manifest: what the file held when it was read, and what is to be published. */
  datatype Swap = Swap(path: string, original: string, temporary: string)

  /** A failed write leaves the file holding anything. */
  datatype Write = Good | Bad(leaves: string)

  /**
   * What happens to one swap: its two writes, and whether an interruption lands just before or
   * just after what it wraps, the only moments its own steps can be interrupted.
   */
  datatype Weather = Weather(install: Write, restore: Write, before: bool, after: bool)

  /** The publication itself may touch any file before it succeeds or not. */
  datatype Body = Body(touches: Files, succeeds: bool)

  /** The failures of an exit, in the order they are combined. */
  datatype Failure = InstallFailed(path: string) | RestoreFailed(path: string) | BodyFailed | Interrupted

  datatype Exit = Success | Failure(causes: seq<Failure>)

  /** How a run ended; `seen` is the files the publication started with, if it started. */
  datatype Outcome = Outcome(files: Files, exit: Exit, seen: Option<Files>)

  function Written(files: Files, path: string, bytes: string, w: Write): Files {
    files[path := if w.Good? then bytes else w.leaves]
  }

  function RestoreCauses(s: Swap, w: Write): seq<Failure> {
    if w.Good? then [] else [RestoreFailed(s.path)]
  }

  function Interrupting(exit: Exit, after: bool): Exit {
    if !after then exit else match exit case Success => Failure([Interrupted]) case Failure(causes) => Failure(causes)
  }

  function ExitOf(causes: seq<Failure>): Exit {
    if causes == [] then Success else Failure(causes)
  }

  function CausesOf(exit: Exit): seq<Failure> {
    match exit case Success => [] case Failure(causes) => causes
  }

  /** The whole publication, outermost swap first. */
  function Published(files: Files, swaps: seq<Swap>, weather: seq<Weather>, body: Body): Outcome
    requires |weather| == |swaps|
    decreases |swaps|
  {
    if swaps == [] then
      Outcome(files + body.touches, if body.succeeds then Success else Failure([BodyFailed]), Some(files))
    else
      var s, w := swaps[0], weather[0];
      var installed := Written(files, s.path, s.temporary, w.install);
      if w.install.Bad? then
        Outcome(Written(installed, s.path, s.original, w.restore),
                Failure([InstallFailed(s.path)] + RestoreCauses(s, w.restore)), None)
      else
        var inner :=
          if w.before then Outcome(installed, Failure([Interrupted]), None)
          else Published(installed, swaps[1..], weather[1..], body);
        Outcome(Written(inner.files, s.path, s.original, w.restore),
                ExitOf(CausesOf(Interrupting(inner.exit, w.after)) + RestoreCauses(s, w.restore)),
                inner.seen)
  }

  predicate DistinctPaths(swaps: seq<Swap>) {
    forall i, j :: 0 <= i < j < |swaps| ==> swaps[i].path != swaps[j].path
  }

  predicate Sound(w: Weather) {
    w.install.Good? && w.restore.Good? && !w.before && !w.after
  }

  predicate AllSound(weather: seq<Weather>) {
    forall w :: w in weather ==> Sound(w)
  }

  predicate Touches(swaps: seq<Swap>, path: string) {
    exists s :: s in swaps && s.path == path
  }

  // ------------------------------------------------------------------ laws

  /** The publication starts only with every replacement installed, and nothing else changed. */
  lemma {:induction false} BodySeesEveryReplacement(files: Files, swaps: seq<Swap>, weather: seq<Weather>, body: Body)
    requires |weather| == |swaps| && DistinctPaths(swaps)
    requires Published(files, swaps, weather, body).seen.Some?
    ensures var seen := Published(files, swaps, weather, body).seen.value;
            && (forall s :: s in swaps ==> s.path in seen && seen[s.path] == s.temporary)
            && (forall p :: !Touches(swaps, p) ==> (p in seen <==> p in files) && (p in files ==> seen[p] == files[p]))
    decreases |swaps|
  {
    if swaps != [] {
      var s := swaps[0];
      var installed := files[s.path := s.temporary];
      BodySeesEveryReplacement(installed, swaps[1..], weather[1..], body);
      var seen := Published(installed, swaps[1..], weather[1..], body).seen.value;
      assert forall x :: x in swaps <==> x == s || x in swaps[1..];
      assert !Touches(swaps[1..], s.path);
      forall p | !Touches(swaps, p) ensures (p in seen <==> p in files) && (p in files ==> seen[p] == files[p]) {
        assert s in swaps;
        assert !Touches(swaps[1..], p);
      }
    }
  }

  /** A file no swap and no publication touches is left alone. */
  lemma {:induction false} OtherFilesAreKept(files: Files, swaps: seq<Swap>, weather: seq<Weather>, body: Body, path: string)
    requires |weather| == |swaps| && !Touches(swaps, path) && path !in body.touches
    ensures var after := Published(files, swaps, weather, body).files;
            (path in after <==> path in files) && (path in files ==> after[path] == files[path])
    decreases |swaps|
  {
    if swaps != [] {
      assert swaps[0] in swaps;
      assert forall x :: x in swaps[1..] ==> x in swaps;
      OtherFilesAreKept(Written(files, swaps[0].path, swaps[0].temporary, weather[0].install), swaps[1..], weather[1..], body, path);
    }
  }

  /**
   * A run reaches a swap unless an outer one fails to install or is interrupted first. Reached, a
   * swap ends with its original bytes when its restoring write succeeds; not reached, its file is
   * never written.
   */
  predicate Reached(weather: seq<Weather>, i: nat)
    requires i < |weather|
  {
    forall k :: 0 <= k < i ==> weather[k].install.Good? && !weather[k].before
  }

  lemma {:induction false} ReachedSwapsAreRestored(files: Files, swaps: seq<Swap>, weather: seq<Weather>, body: Body, i: nat)
    requires |weather| == |swaps| && DistinctPaths(swaps) && i < |swaps|
    requires Reached(weather, i) && weather[i].restore.Good?
    ensures var after := Published(files, swaps, weather, body).files;
            swaps[i].path in after && after[swaps[i].path] == swaps[i].original
    decreases |swaps|
  {
    if i > 0 {
      var installed := files[swaps[0].path := swaps[0].temporary];
      assert weather[0].install.Good? && !weather[0].before;
      ReachedSwapsAreRestored(installed, swaps[1..], weather[1..], body, i - 1);
    }
  }

  lemma {:induction false} UnreachedSwapsAreUntouched(files: Files, swaps: seq<Swap>, weather: seq<Weather>, body: Body, i: nat)
    requires |weather| == |swaps| && DistinctPaths(swaps) && i < |swaps|
    requires !Reached(weather, i)
    ensures var after := Published(files, swaps, weather, body).files;
            (swaps[i].path in after <==> swaps[i].path in files) && (swaps[i].path in files ==> after[swaps[i].path] == files[swaps[i].path])
    ensures Published(files, swaps, weather, body).seen.None?
    decreases |swaps|
  {
    assert i > 0;
    if weather[0].install.Good? && !weather[0].before {
      assert !Reached(weather[1..], i - 1) by {
        var k :| 0 <= k < i && !(weather[k].install.Good? && !weather[k].before);
        assert weather[1..][k - 1] == weather[k];
      }
      UnreachedSwapsAreUntouched(files[swaps[0].path := swaps[0].temporary], swaps[1..], weather[1..], body, i - 1);
    }
  }

  /** Every file that held its original bytes holds them again, unless its own restoring write failed. */
  lemma EveryManifestIsRestored(files: Files, swaps: seq<Swap>, weather: seq<Weather>, body: Body, i: nat)
    requires |weather| == |swaps| && DistinctPaths(swaps) && i < |swaps|
    requires swaps[i].path in files && files[swaps[i].path] == swaps[i].original
    requires weather[i].restore.Good?
    ensures var after := Published(files, swaps, weather, body).files;
            swaps[i].path in after && after[swaps[i].path] == swaps[i].original
  {
    if Reached(weather, i) {
      ReachedSwapsAreRestored(files, swaps, weather, body, i);
    } else {
      UnreachedSwapsAreUntouched(files, swaps, weather, body, i);
    }
  }

  /** Success is reported exactly when every write, the publication and every exit went well. */
  lemma {:induction false} SuccessMeansEverythingWentWell(files: Files, swaps: seq<Swap>, weather: seq<Weather>, body: Body)
    requires |weather| == |swaps|
    ensures Published(files, swaps, weather, body).exit == Success <==> AllSound(weather) && body.succeeds
    decreases |swaps|
  {
    if swaps != [] {
      var s, w := swaps[0], weather[0];
      SuccessMeansEverythingWentWell(Written(files, s.path, s.temporary, w.install), swaps[1..], weather[1..], body);
      assert AllSound(weather) <==> Sound(w) && AllSound(weather[1..]) by {
        assert forall x :: x in weather <==> x == w || x in weather[1..];
      }
      NonEmptyCauses(Written(files, s.path, s.temporary, w.install), swaps[1..], weather[1..], body);
      var inner := Published(Written(files, s.path, s.temporary, w.install), swaps[1..], weather[1..], body);
      assert inner.exit.Failure? ==> CausesOf(Interrupting(inner.exit, w.after)) + RestoreCauses(s, w.restore) != [];
    }
  }

  lemma NonEmptyCauses(files: Files, swaps: seq<Swap>, weather: seq<Weather>, body: Body)
    requires |weather| == |swaps|
    ensures Published(files, swaps, weather, body).exit.Failure? ==> Published(files, swaps, weather, body).exit.causes != []
  {
  }

  // ------------------------------------------------------------------ the code's own form

  class Workspace {
    var files: Files

    constructor (files: Files)
      ensures this.files == files
    {
      this.files := files;
    }

    method WriteFile(path: string, bytes: string, w: Write) returns (ok: bool)
      modifies this
      ensures files == Written(old(files), path, bytes, w) && ok == w.Good?
    {
      match w {
        case Good => files := files[path := bytes];
        case Bad(leaves) => files := files[path := leaves];
      }
      ok := w.Good?;
    }

    /** The outermost swap of the rest: install, run what it wraps, restore on every exit. */
    method WithTemporaryManifests(swaps: seq<Swap>, weather: seq<Weather>, body: Body) returns (exit: Exit, ghost seen: Option<Files>)
      requires |weather| == |swaps|
      modifies this
      ensures Outcome(files, exit, seen) == Published(old(files), swaps, weather, body)
      decreases |swaps|
    {
      if swaps == [] {
        seen := Some(files);
        files := files + body.touches;
        return if body.succeeds then Success else Failure([BodyFailed]), seen;
      }
      var s, w := swaps[0], weather[0];
      var installed := WriteFile(s.path, s.temporary, w.install);
      if !installed {
        var restored := WriteFile(s.path, s.original, w.restore);
        return Failure([InstallFailed(s.path)] + (if restored then [] else [RestoreFailed(s.path)])), None;
      }
      if w.before {
        exit, seen := Failure([Interrupted]), None;
      } else {
        exit, seen := WithTemporaryManifests(swaps[1..], weather[1..], body);
      }
      exit := Interrupting(exit, w.after);
      var restored := WriteFile(s.path, s.original, w.restore);
      ghost var inner := exit;
      if exit.Failure? {
        exit := Failure(if restored then exit.causes else exit.causes + [RestoreFailed(s.path)]);
      } else if !restored {
        exit := Failure([RestoreFailed(s.path)]);
      }
      NonEmptyCauses(Written(old(files), s.path, s.temporary, w.install), swaps[1..], weather[1..], body);
      assert exit == ExitOf(CausesOf(inner) + RestoreCauses(s, w.restore));
    }

    /** Wrapping from the inside out: prerelease state innermost, the first package outermost. */
    method Nest(prepared: seq<Swap>, prerelease: Option<Swap>) returns (swaps: seq<Swap>)
      ensures swaps == prepared + (if prerelease.Some? then [prerelease.value] else [])
    {
      swaps := [];
      if prerelease.Some? { swaps := [prerelease.value] + swaps; }
      ghost var inner := swaps;
      for i := |prepared| downto 0
        invariant swaps == prepared[i..] + inner
      {
        swaps := [prepared[i]] + swaps;
        assert prepared[i..] == [prepared[i]] + prepared[i + 1..];
      }
    }
  }
}
