/** `createIndex`, `scanDependenciesDisable` and the class-file selection of
    `indexModuleClasses`: which class indexes the scan is given. The indexes
    themselves are built by an external library and appear here as opaque
    identifiers. */
module Indexing {
  import opened Wrappers
  import opened Strings

  /** An index produced by the indexing library, known only by its origin. */
  datatype IndexId = IndexId(origin: string)

  /** A resolved dependency: its scope, its type, and the index the jar
      indexer produced for it, or `None` when indexing it threw. */
  datatype Artifact = Artifact(scope: string, kind: string, jarIndex: Option<IndexId>)

  /** The tri-state flag: `null` means dependency scanning is on. */
  function ScanDependenciesDisable(flag: Option<bool>): (disabled: bool)
    ensures disabled <==> flag == Some(true)
  {
    if flag.None? then false else flag.value
  }

  /** Whether an artifact's scope and type are among the allowed ones. */
  predicate Included(a: Artifact, scopes: seq<string>, kinds: seq<string>) {
    a.scope in scopes && a.kind in kinds
  }

  /** The dependency indexes, in artifact order: those of the included
      artifacts whose indexing succeeded. */
  function Contributed(artifacts: seq<Artifact>, scopes: seq<string>, kinds: seq<string>): (ids: seq<IndexId>)
    ensures |ids| <= |artifacts|
    ensures forall x :: x in ids ==>
              exists a :: a in artifacts && Included(a, scopes, kinds) && a.jarIndex == Some(x)
    decreases |artifacts|
  {
    if |artifacts| == 0 then []
    else
      var a := artifacts[0];
      var rest := Contributed(artifacts[1..], scopes, kinds);
      if Included(a, scopes, kinds) && a.jarIndex.Some? then [a.jarIndex.value] + rest else rest
  }

  /** Every included artifact whose indexing succeeded contributes its index. */
  lemma {:induction false} ContributedComplete(artifacts: seq<Artifact>, scopes: seq<string>, kinds: seq<string>, i: nat)
    requires i < |artifacts| && Included(artifacts[i], scopes, kinds) && artifacts[i].jarIndex.Some?
    ensures artifacts[i].jarIndex.value in Contributed(artifacts, scopes, kinds)
  {
    if i > 0 {
      assert artifacts[1..][i - 1] == artifacts[i];
      ContributedComplete(artifacts[1..], scopes, kinds, i - 1);
    }
  }

  /** Selection keeps the artifacts' order: it distributes over concatenation. */
  lemma {:induction false} ContributedAppend(xs: seq<Artifact>, ys: seq<Artifact>, scopes: seq<string>, kinds: seq<string>)
    ensures Contributed(xs + ys, scopes, kinds) == Contributed(xs, scopes, kinds) + Contributed(ys, scopes, kinds)
  {
    if |xs| > 0 {
      assert (xs + ys)[0] == xs[0];
      assert (xs + ys)[1..] == xs[1..] + ys;
      ContributedAppend(xs[1..], ys, scopes, kinds);
    } else {
      assert xs + ys == ys;
    }
  }

  /** The indexes handed to the scanner: the module's own index first, then,
      unless dependency scanning is disabled, the dependency indexes. A
      dependency that fails to index is skipped, not fatal. */
  method CreateIndex(moduleIndex: IndexId, disableFlag: Option<bool>, artifacts: seq<Artifact>,
                     scopes: seq<string>, kinds: seq<string>) returns (indexes: seq<IndexId>)
    ensures |indexes| >= 1 && indexes[0] == moduleIndex
    ensures ScanDependenciesDisable(disableFlag) ==> indexes == [moduleIndex]
    ensures !ScanDependenciesDisable(disableFlag) ==>
              indexes == [moduleIndex] + Contributed(artifacts, scopes, kinds)
  {
    indexes := [moduleIndex];
    if !ScanDependenciesDisable(disableFlag) {
      for i := 0 to |artifacts|
        invariant indexes == [moduleIndex] + Contributed(artifacts[..i], scopes, kinds)
      {
        var a := artifacts[i];
        if a.scope in scopes && a.kind in kinds {
          match a.jarIndex
          case Some(id) =>
            indexes := indexes + [id];
          case None =>
            // the failure is logged and the artifact skipped
        }
        assert artifacts[..i + 1] == artifacts[..i] + [a];
        ContributedAppend(artifacts[..i], [a], scopes, kinds);
      }
      assert artifacts[..|artifacts|] == artifacts;
    }
  }

  /** The suffix that marks a compiled class file. */
  const ClassSuffix: string := ".class"

  /** The walked paths that are indexed from the classes directory. */
  function ClassFiles(paths: seq<string>): (selected: seq<string>)
    ensures |selected| <= |paths|
    ensures forall p :: p in selected <==> p in paths && EndsWith(p, ClassSuffix)
    decreases |paths|
  {
    if |paths| == 0 then []
    else
      var rest := ClassFiles(paths[1..]);
      assert forall p :: p in paths <==> p == paths[0] || p in paths[1..];
      if EndsWith(paths[0], ClassSuffix) then [paths[0]] + rest else rest
  }

  /** Class-file selection keeps the walk's order and multiplicity: it
      distributes over concatenation. */
  lemma {:induction false} ClassFilesAppend(xs: seq<string>, ys: seq<string>)
    ensures ClassFiles(xs + ys) == ClassFiles(xs) + ClassFiles(ys)
  {
    if |xs| > 0 {
      assert (xs + ys)[0] == xs[0];
      assert (xs + ys)[1..] == xs[1..] + ys;
      ClassFilesAppend(xs[1..], ys);
    } else {
      assert xs + ys == ys;
    }
  }
}
