/**
 * Why a production entry point reaches a forbidden module (scripts/verify-package-purity.ts,
 * 270-307): a shortest import path through a bundle's metadata.
 */
module PackagePurity {
  import opened Common
  import opened ShortestPath

  datatype Import = Import(path: string, isExternal: bool)

  /** The bundler's metadata: who imports what, and the bundle's entry, when it names one. */
  datatype Metafile = Metafile(inputs: map<string, seq<Import>>, entry: Option<string>)

  const EXTERNAL := "external:"

  function NodeOf(i: Import): string {
    if i.isExternal then EXTERNAL + i.path else i.path
  }

  function ImportGraph(m: Metafile): Graph<string> {
    map a | a in m.inputs :: Shown(m.inputs[a], NodeOf)
  }

  /** The text without the first mark of an external package in it. */
  function Strip(s: string): string {
    if |s| >= |EXTERNAL| && s[..|EXTERNAL|] == EXTERNAL then s[|EXTERNAL|..]
    else if s == [] then []
    else [s[0]] + Strip(s[1..])
  }

  /** An external package is shown by the name it was imported under. */
  lemma StrippingNamesThePackage(path: string)
    ensures Strip(NodeOf(Import(path, true))) == path
  {
    assert (EXTERNAL + path)[..|EXTERNAL|] == EXTERNAL;
    assert (EXTERNAL + path)[|EXTERNAL|..] == path;
  }

  /**
   * The reported path. When the target can be reached it is a shortest import path from the
   * entry, marks of external packages removed; otherwise just the entry and the target.
   */
  method DependencyPath(m: Metafile, sourcePath: string, target: string) returns (path: seq<string>, ghost walk: seq<string>)
    ensures m.entry.None? ==> path == [sourcePath, Strip(target)]
    ensures m.entry.Some? && Reachable(ImportGraph(m), m.entry.value, target) ==>
              IsShortest(ImportGraph(m), walk, m.entry.value, target) && path == Shown(walk, Strip)
    ensures m.entry.Some? && !Reachable(ImportGraph(m), m.entry.value, target) ==> path == [m.entry.value, Strip(target)]
  {
    walk := [];
    if m.entry.None? {
      return [sourcePath, Strip(target)], walk;
    }
    var entry := m.entry.value;
    var search := new Search(ImportGraph(m), entry);
    search.Run(target);
    if target !in search.parents {
      return [entry, Strip(target)], walk;
    }
    walk := search.walks[target];
    path := search.Trace(target, Strip);
  }
}
