/**
 Under which names a completed run reports its changed files. A path is checked for the workspace
 as it was given, but the artifact carries it trimmed; so a file whose name has white space around
 it is reported under another name, which can be that of another file.
 */
module ReportedNames {
  import opened Wrappers
  import opened Text
  import opened PosixPaths
  import opened ExecutionResults
  import opened ClaudeSession

  /** The changed files that leave an artifact, in order. */
  function NonEmpty(env: Setting, files: seq<string>): seq<string> {
    if files == [] then []
    else
      var path := files[|files| - 1];
      var front := NonEmpty(env, files[..|files| - 1]);
      if env.file(path).Present? && env.file(path).size > 0 then front + [path] else front
  }

  lemma {:induction false} NonEmptyAre(env: Setting, files: seq<string>, path: string)
    ensures path in NonEmpty(env, files) <==> path in files && env.file(path).Present? && env.file(path).size > 0
    decreases |files|
  {
    if files != [] {
      var front := files[..|files| - 1];
      assert files == front + [files[|files| - 1]];
      NonEmptyAre(env, front, path);
    }
  }

  /** One artifact for each file that is not empty, in order, under the file's trimmed path. */
  lemma {:induction false} ArtifactsInOrder(env: Setting, files: seq<string>)
    requires BuildArtifacts(env, files).Ok? && BuildArtifacts(env, files).value.Built?
    ensures
      var artifacts, sources := BuildArtifacts(env, files).value.artifacts, NonEmpty(env, files);
      && |artifacts| == |sources|
      && forall k | 0 <= k < |artifacts| :: Contributes(env, sources[k], artifacts[k])
    decreases |files|
  {
    hide MakeArtifact, Strip;
    if files != [] {
      var front, path := files[..|files| - 1], files[|files| - 1];
      ArtifactsInOrder(env, front);
      if env.file(path).Present? && env.file(path).size > 0 {
        MadeArtifact(env, path, env.file(path).digest, env.file(path).size);
      }
    }
  }

  /** The file is reported, and under its own name. */
  predicate OwnName(env: Setting, artifacts: seq<Artifact>, path: string) {
    exists a | a in artifacts :: a.path == path && env.file(path) == Present(a.digest, a.size)
  }

  lemma TrimmedIffStripped(s: string)
    ensures Strip(s) == s <==> Trimmed(s)
  {
    StripIsTrimmed(s);
  }

  /**
   A completed run reports every changed file that is not empty under its own name exactly when
   all their paths are trimmed.
   */
  lemma OwnNames(env: Setting, request: Request, files: seq<string>, sequence: nat)
    requires var r := FinalizeChanges(env, request, files, sequence); r.Ok? && r.value.outcome.Completed?
    ensures
      var artifacts := FinalizeChanges(env, request, files, sequence).value.artifacts;
      (forall path | path in NonEmpty(env, files) :: OwnName(env, artifacts, path)) <==>
      (forall path | path in NonEmpty(env, files) :: Trimmed(path))
  {
    hide Trimmed, Strip, BuildArtifacts, NonEmpty, FirstViolation, Fails, FinalizeChanges;
    CompletedIsGoverned(env, request, files, sequence);
    ArtifactsInOrder(env, files);
    var artifacts, sources := FinalizeChanges(env, request, files, sequence).value.artifacts, NonEmpty(env, files);
    forall path | path in sources
      ensures OwnName(env, artifacts, path) <==> Trimmed(path)
    {
      var k :| 0 <= k < |sources| && sources[k] == path;
      TrimmedIffStripped(path);
      assert Contributes(env, sources[k], artifacts[k]) && artifacts[k] in artifacts;
      if OwnName(env, artifacts, path) {
        var a :| a in artifacts && a.path == path && env.file(path) == Present(a.digest, a.size);
        var i :| 0 <= i < |artifacts| && artifacts[i] == a;
        assert Contributes(env, sources[i], artifacts[i]);
        StripIsTrimmed(sources[i]);
      }
    }
  }

  predicate DistinctPaths(artifacts: seq<Artifact>) {
    forall i, j | 0 <= i < j < |artifacts| :: artifacts[i].path != artifacts[j].path
  }

  predicate DistinctWhenTrimmed(paths: seq<string>) {
    forall i, j | 0 <= i < j < |paths| :: Strip(paths[i]) != Strip(paths[j])
  }

  /** Two changed files that differ only in space around their names yield two artifacts with one path. */
  lemma NamesCollide(env: Setting, request: Request, files: seq<string>, sequence: nat)
    requires var r := FinalizeChanges(env, request, files, sequence); r.Ok? && r.value.outcome.Completed?
    ensures
      DistinctPaths(FinalizeChanges(env, request, files, sequence).value.artifacts) <==>
      DistinctWhenTrimmed(NonEmpty(env, files))
  {
    hide Strip, BuildArtifacts, NonEmpty, FirstViolation, Fails, FinalizeChanges;
    CompletedIsGoverned(env, request, files, sequence);
    ArtifactsInOrder(env, files);
    var artifacts, sources := FinalizeChanges(env, request, files, sequence).value.artifacts, NonEmpty(env, files);
    forall k | 0 <= k < |sources|
      ensures artifacts[k].path == Strip(sources[k])
    {
      assert Contributes(env, sources[k], artifacts[k]);
    }
  }

  // ---------------------------------------------------------------- two concrete files

  const PLAIN := "a.py"
  const SPACED := " a.py"

  lemma SpacedIsNormal()
    ensures RelativeNormal(PLAIN) && RelativeNormal(SPACED) && Strip(SPACED) == PLAIN && Strip(PLAIN) == PLAIN
    ensures PlainLine(PLAIN, 1024) && PLAIN != SPACED && PLAIN != "."
  {
    assert |PLAIN| == 4 && |SPACED| == 5 && SPACED[1..] == PLAIN;
    SplitWhole(PLAIN, '/');
    SplitWhole(SPACED, '/');
  }

  /**
   Wherever the two files exist, are not empty and stay in the worktree, and there is room for
   them: both are governed, and the run completes with two artifacts of the same path, so that
   the file ` a.py` is not reported under its own name.
   */
  lemma SpacedFileIsMisnamed(env: Setting, request: Request, digest: string, size: nat)
    requires request.writablePaths == [] && request.limits.maxArtifacts >= 2 && request.limits.maxEvents >= 4
    requires size > 0 && request.limits.maxArtifactBytes >= 2 * size
    requires env.file(PLAIN) == env.file(SPACED) == Present(digest, size)
    requires !env.escapes(PLAIN) && !env.escapes(SPACED)
    requires PlainLine(Strip(env.mediaType(PLAIN)), 128) && PlainLine(Strip(env.mediaType(SPACED)), 128)
    ensures
      var r := FinalizeChanges(env, request, [SPACED, PLAIN], 1);
      && r.Ok? && r.value.outcome.Completed?
      && (forall a | a in r.value.artifacts :: a.path == PLAIN) && |r.value.artifacts| == 2
      && !OwnName(env, r.value.artifacts, SPACED)
  {
    hide RelativeNormal, PlainLine, Strip;
    SpacedIsNormal();
    var files := [SPACED, PLAIN];
    assert files[1..] == [PLAIN] && files[1..][1..] == [];
    assert FirstViolation(env, [], files[1..]) == None;
    var first := Artifact(PLAIN, Strip(env.mediaType(SPACED)), digest, size);
    var second := Artifact(PLAIN, Strip(env.mediaType(PLAIN)), digest, size);
    assert MakeArtifact(env, SPACED, digest, size) == Ok(first) && MakeArtifact(env, PLAIN, digest, size) == Ok(second);
    assert [] + [SPACED] == [SPACED] && [SPACED] + [PLAIN] == files;
    assert [] + [first] == [first] && [first] + [second] == [first, second];
    OneMore(env, [], SPACED, [], first);
    OneMore(env, [SPACED], PLAIN, [first], second);
    TwoSizes(first, second);
  }

  lemma OneMore(env: Setting, front: seq<string>, path: string, artifacts: seq<Artifact>, artifact: Artifact)
    requires BuildArtifacts(env, front) == Ok(Built(artifacts))
    requires env.file(path) == Present(artifact.digest, artifact.size) && artifact.size > 0
    requires MakeArtifact(env, path, artifact.digest, artifact.size) == Ok(artifact)
    ensures BuildArtifacts(env, front + [path]) == Ok(Built(artifacts + [artifact]))
  {
    hide MakeArtifact;
    assert (front + [path])[..|front|] == front;
  }

  lemma TwoSizes(first: Artifact, second: Artifact)
    ensures TotalBytes([first, second]) == first.size + second.size
  {
    var one, two := [first], [first, second];
    assert one[..0] == [] && two[..1] == one;
    assert TotalBytes(one) == first.size;
  }
}
