/**
 One command in one container: which host directories it may see, and how a session settles
 when the process ends, runs out of time, or is cancelled while it is awaited.
 */
module DockerSandbox {
  import opened Wrappers
  import opened Text
  import opened PosixPaths
  import opened ExecutionResults

  datatype CacheMount = CacheMount(hostPath: string, containerPath: string, readOnly: bool)

  datatype SandboxRequest = SandboxRequest(
    runId: string, repositoryRoot: string, worktreeRoot: string, containerMountPath: string,
    cacheMounts: seq<CacheMount>, command: seq<string>, image: string)

  /** What the constructors of a request and of its parts have checked. */
  predicate RequestOk(r: SandboxRequest) {
    && SafeName(r.runId, 128)
    && AbsoluteNormal(r.repositoryRoot) && AbsoluteNormal(r.worktreeRoot) && AbsoluteNormal(r.containerMountPath)
    && Apart(PartsOf(r.repositoryRoot), PartsOf(r.worktreeRoot))
    && (forall mount | mount in r.cacheMounts :: AbsoluteNormal(mount.hostPath) && AbsoluteNormal(mount.containerPath))
    && r.command != [] && forall part | part in r.command :: part != ""
  }

  // ---------------------------------------------------------------- mounts

  const RESERVED := {"/", "/proc", "/sys", "/dev", "/etc", "/run", "/var/run/docker.sock"}

  datatype Violation = DuplicateContainerPath | ReservedContainerPath(path: string) | OverlapsRepository(path: string)

  function ContainerPaths(r: SandboxRequest): seq<string> {
    [r.containerMountPath] + seq(|r.cacheMounts|, i requires 0 <= i < |r.cacheMounts| => r.cacheMounts[i].containerPath)
  }

  /** `len(paths) == len(set(paths))` */
  predicate AllDifferent(paths: seq<string>) {
    forall i, j | 0 <= i < j < |paths| :: paths[i] != paths[j]
  }

  function FirstReserved(paths: seq<string>): Option<string> {
    if paths == [] then None
    else if paths[0] in RESERVED then Some(paths[0])
    else FirstReserved(paths[1..])
  }

  /** `a in b.parents`: a directory strictly above another. */
  predicate InParents(a: seq<string>, b: seq<string>) {
    exists n | 0 <= n < |b| :: b[..n] == a
  }

  predicate Overlaps(hostPath: string, repositoryRoot: string) {
    var host, root := PartsOf(hostPath), PartsOf(repositoryRoot);
    host == root || InParents(root, host) || InParents(host, root)
  }

  function FirstOverlap(mounts: seq<CacheMount>, repositoryRoot: string): Option<string> {
    if mounts == [] then None
    else if Overlaps(mounts[0].hostPath, repositoryRoot) then Some(mounts[0].hostPath)
    else FirstOverlap(mounts[1..], repositoryRoot)
  }

  function MountPolicyViolation(r: SandboxRequest): Option<Violation> {
    if !AllDifferent(ContainerPaths(r)) then Some(DuplicateContainerPath)
    else
      match FirstReserved(ContainerPaths(r))
      case Some(path) => Some(ReservedContainerPath(path))
      case None =>
        match FirstOverlap(r.cacheMounts, r.repositoryRoot)
        case Some(path) => Some(OverlapsRepository(path))
        case None => None
  }

  /** A host path that is at or below both directories. */
  predicate Shared(a: seq<string>, b: seq<string>, path: seq<string>) {
    AtOrBelow(a, path) && AtOrBelow(b, path)
  }

  /** Two directories share a path exactly when one is at or below the other. */
  lemma SharedIsNested(a: seq<string>, b: seq<string>)
    ensures (exists path :: Shared(a, b, path)) <==> !Apart(a, b)
  {
    if AtOrBelow(a, b) {
      assert Shared(a, b, b);
    }
    if AtOrBelow(b, a) {
      assert Shared(a, b, a);
    }
    if exists path :: Shared(a, b, path) {
      var path :| Shared(a, b, path);
      if |a| <= |b| {
        assert b[..|a|] == path[..|a|] == a;
      } else {
        assert a[..|b|] == path[..|b|] == b;
      }
    }
  }

  lemma OverlapIsNested(hostPath: string, repositoryRoot: string)
    ensures Overlaps(hostPath, repositoryRoot) <==> !Apart(PartsOf(repositoryRoot), PartsOf(hostPath))
  {
    hide PartsOf;
    var host, root := PartsOf(hostPath), PartsOf(repositoryRoot);
    assert InParents(root, host) || host == root <==> root <= host by { ParentsArePrefixes(root, host); }
    assert InParents(host, root) || host == root <==> host <= root by { ParentsArePrefixes(host, root); }
  }

  lemma ParentsArePrefixes(a: seq<string>, b: seq<string>)
    ensures InParents(a, b) || a == b <==> a <= b
  {
    if a <= b && a != b {
      assert b[..|a|] == a;
    }
  }

  lemma {:induction false} NoOverlap(mounts: seq<CacheMount>, repositoryRoot: string)
    ensures FirstOverlap(mounts, repositoryRoot).None? <==>
            forall mount | mount in mounts :: !Overlaps(mount.hostPath, repositoryRoot)
  {
    hide Overlaps;
    if mounts != [] {
      NoOverlap(mounts[1..], repositoryRoot);
    }
  }

  lemma {:induction false} NoneReserved(paths: seq<string>)
    ensures FirstReserved(paths).None? <==> forall path | path in paths :: path !in RESERVED
  {
    if paths != [] {
      NoneReserved(paths[1..]);
    }
  }

  /** The host directories that the container gets to see. */
  function HostPaths(r: SandboxRequest): seq<string> {
    [r.worktreeRoot] + seq(|r.cacheMounts|, i requires 0 <= i < |r.cacheMounts| => r.cacheMounts[i].hostPath)
  }

  /** Nothing below any mounted directory is at or below the repository. */
  predicate RepositoryHidden(r: SandboxRequest) {
    forall i | 0 <= i < |HostPaths(r)| :: Apart(PartsOf(r.repositoryRoot), PartsOf(HostPaths(r)[i]))
  }

  /**
   A request passes exactly when its container paths are different and not reserved, and no
   mounted directory, worktree or cache, shares any host path with the repository.
   */
  lemma PolicyHidesRepository(r: SandboxRequest)
    requires RequestOk(r)
    ensures MountPolicyViolation(r).None? <==>
            && AllDifferent(ContainerPaths(r))
            && (forall path | path in ContainerPaths(r) :: path !in RESERVED)
            && RepositoryHidden(r)
  {
    hide PartsOf, Apart, Overlaps, ContainerPaths;
    NoneReserved(ContainerPaths(r));
    NoOverlap(r.cacheMounts, r.repositoryRoot);
    forall mount | mount in r.cacheMounts
      ensures Overlaps(mount.hostPath, r.repositoryRoot) <==> !Apart(PartsOf(r.repositoryRoot), PartsOf(mount.hostPath))
    {
      OverlapIsNested(mount.hostPath, r.repositoryRoot);
    }
    var hosts := HostPaths(r);
    assert forall i | 1 <= i < |hosts| :: hosts[i] == r.cacheMounts[i - 1].hostPath;
    if RepositoryHidden(r) {
      forall mount | mount in r.cacheMounts
        ensures Apart(PartsOf(r.repositoryRoot), PartsOf(mount.hostPath))
      {
        var i :| 0 <= i < |r.cacheMounts| && r.cacheMounts[i] == mount;
        assert hosts[i + 1] == mount.hostPath;
      }
    }
  }

  /** So in an accepted request no host path is both mounted and part of the repository. */
  lemma AcceptedExposesNothing(r: SandboxRequest, i: nat, path: seq<string>)
    requires RequestOk(r) && MountPolicyViolation(r).None? && i < |HostPaths(r)|
    ensures !Shared(PartsOf(r.repositoryRoot), PartsOf(HostPaths(r)[i]), path)
  {
    hide PartsOf;
    PolicyHidesRepository(r);
    SharedIsNested(PartsOf(r.repositoryRoot), PartsOf(HostPaths(r)[i]));
  }

  // ---------------------------------------------------------------- the command line

  /** The arguments of the cache at `i`, behind those of the worktree. */
  predicate CacheArgumentAt(r: SandboxRequest, argv: seq<string>, i: int) {
    && 0 <= i < |r.cacheMounts| && 2 * i + 3 < |argv|
    && argv[2 * i + 2] == "-v"
    && var mount := r.cacheMounts[i];
       argv[2 * i + 3] == mount.hostPath + ":" + mount.containerPath + if mount.readOnly then ":ro" else ""
  }

  function VolumeText(hostPath: string, containerPath: string, readOnly: bool): string {
    hostPath + ":" + containerPath + if readOnly then ":ro" else ""
  }

  /**
   The volume arguments: the worktree first, writable, then the caches in order, each read-only or
   not as it says, and nothing else.
   */
  method VolumeArguments(r: SandboxRequest) returns (argv: seq<string>)
    ensures |argv| == 2 * |r.cacheMounts| + 2
    ensures argv[0] == "-v" && argv[1] == r.worktreeRoot + ":" + r.containerMountPath
    ensures forall i | 0 <= i < |r.cacheMounts| :: CacheArgumentAt(r, argv, i)
  {
    argv := ["-v", VolumeText(r.worktreeRoot, r.containerMountPath, false)];
    assert argv[1] == r.worktreeRoot + ":" + r.containerMountPath;
    var k := 0;
    while k < |r.cacheMounts|
      invariant 0 <= k <= |r.cacheMounts| && |argv| == 2 * k + 2
      invariant argv[0] == "-v" && argv[1] == r.worktreeRoot + ":" + r.containerMountPath
      invariant forall i | 0 <= i < k :: CacheArgumentAt(r, argv, i)
    {
      var mount := r.cacheMounts[k];
      ghost var before := argv;
      argv := argv + ["-v", VolumeText(mount.hostPath, mount.containerPath, mount.readOnly)];
      assert argv[2 * k + 2] == "-v";
      assert forall i | 0 <= i < k :: CacheArgumentAt(r, before, i) ==> CacheArgumentAt(r, argv, i);
      assert CacheArgumentAt(r, argv, k);
      k := k + 1;
    }
  }

  // ---------------------------------------------------------------- how a session settles

  datatype SandboxResult = SandboxResult(
    runId: string, outcome: Outcome, exitCode: Option<int>, stdout: string, stderr: string, duration: real,
    failure: Option<Failure>)

  predicate SandboxPermitted(outcome: Outcome, category: Category) {
    match outcome
    case Blocked => category.Policy?
    case TimedOut => category.Timeout?
    case Cancelled => category.CancelledCategory?
    case _ => false
  }

  /** The checks of the constructor of a result. */
  predicate SandboxResultOk(r: SandboxResult) {
    && (r.outcome.Completed? || r.outcome.Blocked? || r.outcome.TimedOut? || r.outcome.Cancelled?)
    && (r.failure.None? <==> r.outcome.Completed?)
    && (r.outcome.Completed? ==> r.exitCode.Some?)
    && (r.failure.Some? ==> SandboxPermitted(r.outcome, r.failure.value.category))
    && r.duration >= 0.0
  }

  /** How the wait for the process ends: by itself, or at the deadline. */
  datatype Wait = Exits(code: int) | RunsOut

  /**
   What happens around the wait: cancellations before it, during it and while the output is
   read, and the exit code if the process has to be killed.
   */
  datatype Script = Script(
    before: seq<string>, wait: Wait, during: seq<string>, killedCode: int, late: seq<string>,
    stdout: string, stderr: string, elapsed: real)

  /** `_await_completion`, for an accepted cancellation `reason` when it begins. */
  function Completion(reason: Option<string>, script: Script): (Outcome, int) {
    if reason.Some? then (Cancelled, script.killedCode)
    else
      match script.wait
      case RunsOut => (TimedOut, script.killedCode)
      case Exits(code) => (if AcceptReasons(reason, script.during).Some? then Cancelled else Completed, code)
  }

  /** The accepted cancellation after the wait. */
  function ReasonAfter(reason: Option<string>, script: Script): Option<string> {
    AcceptReasons(reason, script.during)
  }

  function FailureFor(outcome: Outcome, reason: Option<string>): Option<Failure> {
    match outcome
    case Cancelled => Some(Failure(CancelledCategory, "cancelled_by_caller", if reason.Some? then reason.value else ""))
    case TimedOut =>
      Some(Failure(Timeout, "wall_clock_exceeded", "The sandboxed command did not finish within its wall-clock limit"))
    case _ => None
  }

  /** The result of a session that was launched and cancelled so far for `reason`. */
  function SettledResult(runId: string, reason: Option<string>, script: Script): SandboxResult {
    var first := AcceptReasons(reason, script.before);
    var (outcome, code) := Completion(first, script);
    SandboxResult(
      runId, outcome, Some(code), script.stdout, script.stderr, if script.elapsed < 0.0 then 0.0 else script.elapsed,
      FailureFor(outcome, AcceptReasons(ReasonAfter(first, script), script.late)))
  }

  function BlockedResult(runId: string, violation: Violation): SandboxResult {
    var failure := match violation
      case DuplicateContainerPath =>
        Failure(Policy, "duplicate_container_mount_path", "Two or more mounts target the same path inside the container")
      case ReservedContainerPath(path) =>
        Failure(
          Policy, "mount_targets_reserved_container_path",
          "Refusing to mount over the reserved container path: " + path)
      case OverlapsRepository(path) =>
        Failure(
          Policy, "cache_mount_overlaps_repository_root",
          "Cache mount host path overlaps the full repository root, not just the isolated worktree: " + path);
    SandboxResult(runId, Blocked, None, "", "", 0.0, Some(failure))
  }

  /**
   A settled result passes the checks of its constructor. It is cancelled exactly when a
   cancellation was accepted before the wait, or during a wait that the process ended by
   itself; and then it carries the first accepted reason. Otherwise it timed out or completed as
   the wait did. The exit code is that of the process, or of killing it; the output is the
   process's, stream by stream.
   */
  lemma SettledIsOk(runId: string, reason: Option<string>, script: Script)
    requires ReasonOk(reason)
    ensures
      var r := SettledResult(runId, reason, script);
      var first := AcceptReasons(reason, script.before);
      var second := AcceptReasons(first, script.during);
      && SandboxResultOk(r)
      && r.runId == runId && r.stdout == script.stdout && r.stderr == script.stderr
      && (script.elapsed >= 0.0 ==> r.duration == script.elapsed)
      && (r.outcome.Cancelled? <==> first.Some? || (second.Some? && script.wait.Exits?))
      && (r.outcome.Cancelled? ==>
            second.Some? && r.failure == Some(Failure(CancelledCategory, "cancelled_by_caller", second.value)))
      && (r.outcome.TimedOut? <==> first.None? && script.wait.RunsOut?)
      && (r.outcome.TimedOut? ==>
            r.failure.Some? && r.failure.value.category.Timeout? && r.failure.value.code == "wall_clock_exceeded")
      && (r.outcome.Completed? <==> second.None? && script.wait.Exits?)
      && r.exitCode == Some(if first.None? && script.wait.Exits? then script.wait.code else script.killedCode)
  {
    hide AcceptReasons, ReasonOk;
    FirstReasonStays(reason, script.before);
    var first := AcceptReasons(reason, script.before);
    FirstReasonStays(first, script.during);
    FirstReasonStays(AcceptReasons(first, script.during), script.late);
  }

  /** The result of a session that never ran, for a policy violation. */
  predicate Refuses(r: SandboxResult, runId: string, code: string) {
    && r.runId == runId && r.outcome.Blocked? && r.exitCode.None? && r.stdout == "" && r.stderr == ""
    && r.duration == 0.0 && r.failure.Some? && r.failure.value.category.Policy? && r.failure.value.code == code
  }

  /**
   A request is refused for its container paths before its caches, and for repeated paths before
   reserved ones; the result of its session passes the checks and says which.
   */
  lemma BlockedIsOk(r: SandboxRequest, runId: string)
    requires MountPolicyViolation(r).Some?
    ensures
      var result := BlockedResult(runId, MountPolicyViolation(r).value);
      && SandboxResultOk(result)
      && Refuses(
           result, runId,
           if !AllDifferent(ContainerPaths(r)) then "duplicate_container_mount_path"
           else if exists path | path in ContainerPaths(r) :: path in RESERVED then "mount_targets_reserved_container_path"
           else "cache_mount_overlaps_repository_root")
  {
    hide ContainerPaths, Overlaps;
    NoneReserved(ContainerPaths(r));
  }

  class SandboxSession {
    const runId: string
    var running: bool
    var cancelReason: Option<string>
    var settled: Option<SandboxResult>

    /** A session that never launched anything. */
    constructor Refused(runId: string, violation: Violation)
      ensures this.runId == runId && settled == Some(BlockedResult(runId, violation)) && !running && cancelReason == None
    {
      this.runId := runId;
      running, cancelReason := false, None;
      settled := Some(BlockedResult(runId, violation));
    }

    constructor Running(runId: string)
      ensures this.runId == runId && settled.None? && running && cancelReason == None
    {
      this.runId := runId;
      running, cancelReason, settled := true, None, None;
    }

    /** Too late once there is a result; otherwise the first acceptable reason counts, and the container is killed. */
    method Cancel(reason: string) returns (r: Result<(), SessionFault>)
      modifies this`cancelReason, this`running
      ensures r == if settled.Some? || PlainLine(Strip(reason), 512) then Ok(()) else Err(ValueFault)
      ensures cancelReason == if settled.Some? then old(cancelReason) else AcceptReason(old(cancelReason), reason)
      ensures running == (old(running) && (settled.Some? || r.Err?))
    {
      if settled.Some? {
        return Ok(());
      }
      var normalized := RequiredText(reason, 512);
      if normalized.Err? {
        return Err(normalized.error);
      }
      if cancelReason.None? {
        cancelReason := Some(normalized.value);
      }
      running := false;
      return Ok(());
    }

    method Suspend(reasons: seq<string>)
      requires settled.None?
      modifies this`cancelReason, this`running
      ensures cancelReason == AcceptReasons(old(cancelReason), reasons)
    {
      var i := 0;
      while i < |reasons|
        invariant 0 <= i <= |reasons|
        invariant AcceptReasons(old(cancelReason), reasons) == AcceptReasons(cancelReason, reasons[i..])
      {
        assert reasons[i..][1..] == reasons[i + 1..];
        var accepted := Cancel(reasons[i]);
        i := i + 1;
      }
    }

    method AwaitCompletion(script: Script) returns (outcome: Outcome, code: int)
      requires settled.None?
      modifies this`cancelReason, this`running
      ensures (outcome, code) == Completion(old(cancelReason), script)
      ensures old(cancelReason).None? ==> cancelReason == ReasonAfter(old(cancelReason), script)
      ensures old(cancelReason).Some? ==> cancelReason == old(cancelReason)
    {
      if cancelReason.Some? {
        running := false;
        return Cancelled, script.killedCode;
      }
      Suspend(script.during);
      match script.wait
      case RunsOut =>
        running := false;
        return TimedOut, script.killedCode;
      case Exits(code) =>
        if cancelReason.Some? {
          return Cancelled, code;
        }
        return Completed, code;
    }

    /** The result is stable: computed once, and the same ever after. */
    method Settle(script: Script) returns (r: SandboxResult)
      requires ReasonOk(cancelReason)
      modifies this
      ensures settled == Some(r)
      ensures r == match old(settled)
                   case Some(result) => result
                   case None => SettledResult(runId, old(cancelReason), script)
    {
      if settled.Some? {
        return settled.value;
      }
      hide AcceptReasons, ReasonOk;
      FirstReasonStays(cancelReason, script.before);
      Suspend(script.before);
      ghost var first := cancelReason;
      FirstReasonStays(first, script.during);
      var outcome, code := AwaitCompletion(script);
      Suspend(script.late);
      r := SandboxResult(
        runId, outcome, Some(code), script.stdout, script.stderr, if script.elapsed < 0.0 then 0.0 else script.elapsed,
        FailureFor(outcome, cancelReason));
      settled := Some(r);
      running := false;
    }
  }

  /** Starts containers, one for each accepted request; `launched` are the requests whose containers ran. */
  class Sandbox {
    var launched: seq<SandboxRequest>

    constructor ()
      ensures launched == []
    {
      launched := [];
    }

    method Start(request: SandboxRequest) returns (session: SandboxSession)
      modifies this
      ensures fresh(session) && session.runId == request.runId && session.cancelReason == None
      ensures match MountPolicyViolation(request)
              case Some(violation) =>
                launched == old(launched) && session.settled == Some(BlockedResult(request.runId, violation))
              case None => launched == old(launched) + [request] && session.settled.None? && session.running
    {
      hide MountPolicyViolation;
      var violation := MountPolicyViolation(request);
      if violation.Some? {
        session := new SandboxSession.Refused(request.runId, violation.value);
      } else {
        launched := launched + [request];
        session := new SandboxSession.Running(request.runId);
      }
    }
  }

  function ContainerName(runId: string): string {
    "gmai-sandbox-" + runId
  }
}
