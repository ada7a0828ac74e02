/** Running a repository's checks one after the other, each in its own container. */
module QualityChecks {
  import opened Wrappers
  import opened Text
  import opened PosixPaths
  import opened ExecutionResults
  import opened DockerSandbox

  datatype Check = Check(name: string, command: Option<seq<string>>)

  /** What the constructor of a check has checked. */
  predicate CheckOk(check: Check) {
    && SafeName(check.name, 64)
    && (check.command.Some? ==> check.command.value != [] && forall part | part in check.command.value :: part != "")
  }

  datatype CheckOutcome = Passed | CheckFailed | Skipped | CheckTimedOut | Unavailable

  datatype CheckResult = CheckResult(
    checkName: string, outcome: CheckOutcome, command: Option<seq<string>>, exitCode: Option<int>, duration: real,
    failure: Option<Failure>)

  predicate CheckPermitted(outcome: CheckOutcome, category: Category) {
    match outcome
    case CheckFailed => category.Tool? || category.Policy?
    case Skipped => category.CancelledCategory?
    case CheckTimedOut => category.Timeout?
    case _ => false
  }

  /** The checks of the constructor of a check result. */
  predicate CheckResultOk(r: CheckResult) {
    && SafeName(r.checkName, 64)
    && r.duration >= 0.0
    && (if r.outcome.Unavailable? then r.command.None? && r.exitCode.None?
        else r.command.Some? && r.command.value != [] && forall part | part in r.command.value :: part != "")
    && (r.outcome.Passed? ==> r.exitCode == Some(0))
    && (r.failure.Some? <==> r.outcome.CheckFailed? || r.outcome.Skipped? || r.outcome.CheckTimedOut?)
    && (r.failure.Some? ==> CheckPermitted(r.outcome, r.failure.value.category))
  }

  function UnavailableResult(check: Check): CheckResult {
    CheckResult(check.name, Unavailable, None, None, 0.0, None)
  }

  function SkippedResult(check: Check): CheckResult {
    CheckResult(
      check.name, Skipped, check.command, None, 0.0,
      Some(Failure(
        CancelledCategory, "cancelled_before_start",
        "The quality-check run was cancelled before this check could start")))
  }

  /** `code` names the exit status in the message; the text itself is not compared anywhere. */
  function OutcomeAndFailure(check: Check, r: SandboxResult, code: int -> string): (CheckOutcome, Option<Failure>) {
    match r.outcome
    case Completed =>
      if r.exitCode == Some(0) then (Passed, None)
      else
        var status := if r.exitCode.Some? then code(r.exitCode.value) else "None";
        (CheckFailed, Some(Failure(Tool, "check_command_failed", check.name + " exited with status " + status)))
    case TimedOut => (CheckTimedOut, r.failure)
    case Cancelled => (Skipped, r.failure)
    case _ => (CheckFailed, r.failure)
  }

  function FromSandbox(check: Check, r: SandboxResult, code: int -> string): CheckResult {
    var (outcome, failure) := OutcomeAndFailure(check, r, code);
    CheckResult(check.name, outcome, check.command, r.exitCode, r.duration, failure)
  }

  /**
   A check result made from a sandbox result is never rejected, and passes only on exit code 0. A
   command that completes otherwise is a failed check with a failure of its own; whatever else
   ended the run keeps its failure: a time-out, a cancellation as a skipped check, a refusal as a
   failed one.
   */
  lemma FromSandboxIsOk(check: Check, r: SandboxResult, code: int -> string)
    requires CheckOk(check) && check.command.Some? && SandboxResultOk(r)
    ensures CheckResultOk(FromSandbox(check, r, code))
    ensures FromSandbox(check, r, code).outcome.Passed? <==> r.outcome.Completed? && r.exitCode == Some(0)
    ensures
      var result := FromSandbox(check, r, code);
      && result.checkName == check.name && result.command == check.command
      && result.exitCode == r.exitCode && result.duration == r.duration
      && (r.outcome.Completed? && r.exitCode != Some(0) ==>
            && result.outcome.CheckFailed? && result.failure.Some?
            && result.failure.value.category.Tool? && result.failure.value.code == "check_command_failed")
      && (!r.outcome.Completed? ==> result.failure == r.failure)
      && (r.outcome.TimedOut? ==> result.outcome.CheckTimedOut?)
      && (r.outcome.Cancelled? ==> result.outcome.Skipped?)
      && (r.outcome.Blocked? ==> result.outcome.CheckFailed?)
  {
  }

  // ---------------------------------------------------------------- names

  function Decimal(n: nat): (s: string)
    ensures s != "" && forall i | 0 <= i < |s| :: '0' <= s[i] <= '9'
  {
    var digit := ['0' + (n % 10) as char];
    if n < 10 then digit else Decimal(n / 10) + digit
  }

  /** The number that decimal digits denote. */
  function ReadDecimal(s: string): int {
    if s == "" then 0 else 10 * ReadDecimal(s[..|s| - 1]) + (s[|s| - 1] as int - '0' as int)
  }

  /** The digits denote the number, the highest first, and do not begin with a zero that could be left out. */
  lemma {:induction false} DecimalIsRead(n: nat)
    ensures ReadDecimal(Decimal(n)) == n && forall c | c in Decimal(n) :: '0' <= c <= '9'
    ensures n > 0 ==> Decimal(n)[0] != '0'
    decreases n
  {
    var s := Decimal(n);
    if n < 10 {
      assert s[..0] == "";
    } else {
      DecimalIsRead(n / 10);
      assert s[..|s| - 1] == Decimal(n / 10);
    }
  }

  lemma DecimalIsInjective(a: nat, b: nat)
    requires Decimal(a) == Decimal(b)
    ensures a == b
  {
    DecimalIsRead(a);
    DecimalIsRead(b);
  }

  /** `f"{prefix}-{index}-{check.name}"` */
  function RawRunId(prefix: string, index: nat, name: string): string {
    prefix + ("-" + Decimal(index) + "-" + name)
  }

  function TrimLeft(s: string): string {
    if s != "" && IsSpace(s[0]) then TrimLeft(s[1..]) else s
  }

  /** Trimming a text with a solid end trims only its beginning. */
  lemma {:induction false} StripSolid(prefix: string, rest: string)
    requires rest != "" && !IsSpace(rest[0]) && !IsSpace(rest[|rest| - 1])
    ensures Strip(prefix + rest) == TrimLeft(prefix) + rest
  {
    hide IsSpace;
    var s := prefix + rest;
    if prefix == "" {
      assert s == rest;
    } else if IsSpace(prefix[0]) {
      assert s[0] == prefix[0] && s[1..] == prefix[1..] + rest;
      StripSolid(prefix[1..], rest);
    } else {
      assert s[0] == prefix[0] && s[|s| - 1] == rest[|rest| - 1];
    }
  }

  lemma RunIdText(prefix: string, index: nat, name: string)
    requires SafeName(name, 64)
    ensures Strip(RawRunId(prefix, index, name)) == TrimLeft(prefix) + "-" + (Decimal(index) + ['-'] + name)
  {
    hide Strip, TrimLeft, Decimal;
    var rest := "-" + Decimal(index) + "-" + name;
    assert rest[0] == '-' && rest[|rest| - 1] == name[|name| - 1] && SafeNameChar(name[|name| - 1]);
    StripSolid(prefix, rest);
    assert TrimLeft(prefix) + rest == TrimLeft(prefix) + "-" + (Decimal(index) + ['-'] + name);
  }

  /** Checks at different places have different run ids, whatever the prefix and the names are. */
  lemma RunIdsDiffer(prefix: string, i: nat, a: string, j: nat, b: string)
    requires SafeName(a, 64) && SafeName(b, 64)
    requires Strip(RawRunId(prefix, i, a)) == Strip(RawRunId(prefix, j, b))
    ensures i == j && a == b
  {
    hide Strip, TrimLeft, SafeName;
    RunIdText(prefix, i, a);
    RunIdText(prefix, j, b);
    var head := TrimLeft(prefix) + "-";
    var x, y := Decimal(i) + ['-'] + a, Decimal(j) + ['-'] + b;
    assert (head + x)[|head|..] == x && (head + y)[|head|..] == y;
    SplitHead(Decimal(i), a, Decimal(j), b, '-');
    DecimalIsInjective(i, j);
  }

  // ---------------------------------------------------------------- the batch

  /**
   What the batch is run with: the parts of a request that all checks share, what the
   cancellation event shows when it is looked at, and what happens around each container.
   */
  datatype Batch = Batch(
    prefix: string, repositoryRoot: string, worktreeRoot: string, containerMountPath: string,
    cacheMounts: seq<CacheMount>, image: string, cancelled: nat -> bool, scripts: nat -> Script,
    code: int -> string)

  /** The shared parts have passed their own constructors. */
  predicate BatchOk(batch: Batch) {
    && AbsoluteNormal(batch.repositoryRoot) && AbsoluteNormal(batch.worktreeRoot)
    && AbsoluteNormal(batch.containerMountPath) && Apart(PartsOf(batch.repositoryRoot), PartsOf(batch.worktreeRoot))
    && forall mount | mount in batch.cacheMounts :: AbsoluteNormal(mount.hostPath) && AbsoluteNormal(mount.containerPath)
  }

  function RequestFor(batch: Batch, index: nat, check: Check): SandboxRequest
    requires check.command.Some?
  {
    SandboxRequest(
      Strip(RawRunId(batch.prefix, index, check.name)), batch.repositoryRoot, batch.worktreeRoot,
      batch.containerMountPath, batch.cacheMounts, check.command.value, batch.image)
  }

  /** The event was seen set at this check or at an earlier one that looked at it. */
  predicate Stopped(batch: Batch, checks: seq<Check>, i: int) {
    exists j | 0 <= j <= i :: Observed(batch, checks, j)
  }

  predicate Observed(batch: Batch, checks: seq<Check>, j: int) {
    0 <= j < |checks| && checks[j].command.Some? && batch.cancelled(j)
  }

  /** The check gets as far as a request. */
  predicate Requested(batch: Batch, checks: seq<Check>, i: int) {
    0 <= i < |checks| && checks[i].command.Some? && !Stopped(batch, checks, i)
  }

  function ResultFor(batch: Batch, checks: seq<Check>, i: nat): CheckResult
    requires i < |checks|
  {
    var check := checks[i];
    if check.command.None? then UnavailableResult(check)
    else if Stopped(batch, checks, i) then SkippedResult(check)
    else
      var request := RequestFor(batch, i, check);
      FromSandbox(
        check,
        match MountPolicyViolation(request)
        case Some(violation) => BlockedResult(request.runId, violation)
        case None => SettledResult(request.runId, None, batch.scripts(i)),
        batch.code)
  }

  /** The requests whose containers the first `n` checks launch. */
  function Launches(batch: Batch, checks: seq<Check>, n: nat): seq<SandboxRequest>
    requires n <= |checks|
  {
    if n == 0 then []
    else
      var i := n - 1;
      Launches(batch, checks, i) +
      if Requested(batch, checks, i) && MountPolicyViolation(RequestFor(batch, i, checks[i])).None?
      then [RequestFor(batch, i, checks[i])] else []
  }

  /** The run id of a request may be too long or start badly: then its constructor raises. */
  predicate RunIdFits(batch: Batch, checks: seq<Check>, i: int) {
    Requested(batch, checks, i) ==> SafeName(RequestFor(batch, i, checks[i]).runId, 128)
  }

  /**
   Runs the checks in order. The batch completes exactly when every request can be built;
   then there is one result for each check, in order, and the containers launched are those
   of `Launches`.
   */
  method RunChecks(sandbox: Sandbox, batch: Batch, checks: seq<Check>) returns (r: Result<seq<CheckResult>, SessionFault>)
    requires BatchOk(batch) && forall check | check in checks :: CheckOk(check)
    modifies sandbox
    ensures r.Ok? <==> forall i | 0 <= i < |checks| :: RunIdFits(batch, checks, i)
    ensures r.Ok? ==>
              && |r.value| == |checks|
              && (forall i | 0 <= i < |checks| :: r.value[i] == ResultFor(batch, checks, i))
              && sandbox.launched == old(sandbox.launched) + Launches(batch, checks, |checks|)
  {
    hide FromSandbox, SettledResult, BlockedResult, MountPolicyViolation, Strip, SafeName, CheckOk, BatchOk, RawRunId;
    var results: seq<CheckResult> := [];
    var alreadyCancelled := false;
    var i := 0;
    while i < |checks|
      invariant 0 <= i <= |checks| == |checks| && |results| == i
      invariant alreadyCancelled <==> Stopped(batch, checks, i - 1)
      invariant forall k | 0 <= k < i :: RunIdFits(batch, checks, k)
      invariant forall k | 0 <= k < i :: results[k] == ResultFor(batch, checks, k)
      invariant sandbox.launched == old(sandbox.launched) + Launches(batch, checks, i)
    {
      var check := checks[i];
      StoppedStep(batch, checks, i);
      if check.command.None? {
        results := results + [UnavailableResult(check)];
      } else {
        alreadyCancelled := alreadyCancelled || batch.cancelled(i);
        if alreadyCancelled {
          results := results + [SkippedResult(check)];
        } else {
          var request := RequestFor(batch, i, check);
          if !SafeName(request.runId, 128) {
            assert !RunIdFits(batch, checks, i);
            return Err(ValueFault);
          }
          var session := sandbox.Start(request);
          var settled := session.Settle(batch.scripts(i));
          results := results + [FromSandbox(check, settled, batch.code)];
        }
      }
      i := i + 1;
    }
    r := Ok(results);
  }

  lemma StoppedStep(batch: Batch, checks: seq<Check>, i: nat)
    ensures Stopped(batch, checks, i) <==> Stopped(batch, checks, i - 1) || Observed(batch, checks, i)
  {
  }

  // ---------------------------------------------------------------- what a completed batch is like

  /** Every result of a completed batch is one that its constructor accepts, for its own check. */
  lemma ResultsAreOk(batch: Batch, checks: seq<Check>, i: nat)
    requires i < |checks| && CheckOk(checks[i])
    ensures
      var r := ResultFor(batch, checks, i);
      && CheckResultOk(r) && r.checkName == checks[i].name
      && (r.outcome.Unavailable? <==> checks[i].command.None?)
  {
    hide FromSandbox, SettledResult, BlockedResult, MountPolicyViolation, Strip, SafeName, RawRunId, Stopped;
    var check := checks[i];
    if check.command.Some? && !Stopped(batch, checks, i) {
      var request := RequestFor(batch, i, check);
      match MountPolicyViolation(request)
      case Some(violation) =>
        BlockedIsOk(request, request.runId);
        TranslatedIsOk(check, BlockedResult(request.runId, violation), batch.code);
      case None =>
        SettledIsOk(request.runId, None, batch.scripts(i));
        TranslatedIsOk(check, SettledResult(request.runId, None, batch.scripts(i)), batch.code);
    }
  }

  lemma TranslatedIsOk(check: Check, r: SandboxResult, code: int -> string)
    requires CheckOk(check) && check.command.Some? && SandboxResultOk(r)
    ensures
      var result := FromSandbox(check, r, code);
      CheckResultOk(result) && result.checkName == check.name && !result.outcome.Unavailable?
  {
    FromSandboxIsOk(check, r, code);
  }

  /** Once the cancellation has been seen, nothing more is launched, and every later check is skipped. */
  lemma {:induction false} NothingAfterCancellation(batch: Batch, checks: seq<Check>, j: nat, n: nat)
    requires j < n <= |checks| && Observed(batch, checks, j)
    ensures Launches(batch, checks, n) == Launches(batch, checks, j)
    ensures forall i | j <= i < n && checks[i].command.Some? :: ResultFor(batch, checks, i) == SkippedResult(checks[i])
    decreases n
  {
    hide Observed, MountPolicyViolation, RequestFor, FromSandbox;
    assert forall i | j <= i < n :: Stopped(batch, checks, i);
    if j < n - 1 {
      NothingAfterCancellation(batch, checks, j, n - 1);
    }
  }

  /** The failure of a check says this. */
  predicate FailsWith(r: CheckResult, outcome: CheckOutcome, category: Category, code: string) {
    && r.outcome == outcome && r.failure.Some? && r.failure.value.category == category && r.failure.value.code == code
  }

  /** A cancellation was accepted around the run of a container. */
  predicate CancelledDuring(script: Script) {
    AcceptReasons(AcceptReasons(None, script.before), script.during).Some?
  }

  /**
   What the result of each check says: an unavailable check has none, a check after the
   cancellation is skipped, a refused container is a failed check, and otherwise the result is
   decided by how the check's own container ended.
   */
  lemma ResultsTell(batch: Batch, checks: seq<Check>, i: nat)
    requires i < |checks| && CheckOk(checks[i])
    ensures
      var r := ResultFor(batch, checks, i);
      if checks[i].command.None? then r.outcome.Unavailable? && r.failure.None?
      else if Stopped(batch, checks, i) then
        FailsWith(r, Skipped, CancelledCategory, "cancelled_before_start") && r.exitCode.None?
      else if MountPolicyViolation(RequestFor(batch, i, checks[i])).Some? then
        r.outcome.CheckFailed? && r.failure.Some? && r.failure.value.category.Policy? && r.exitCode.None?
      else
        var script := batch.scripts(i);
        && (script.elapsed >= 0.0 ==> r.duration == script.elapsed)
        && (!CancelledDuring(script) ==>
              match script.wait
              case RunsOut => FailsWith(r, CheckTimedOut, Timeout, "wall_clock_exceeded")
              case Exits(code) =>
                && r.exitCode == Some(code)
                && if code == 0 then r.outcome.Passed? && r.failure.None?
                   else FailsWith(r, CheckFailed, Tool, "check_command_failed"))
        && (CancelledDuring(script) && script.wait.Exits? ==>
              FailsWith(r, Skipped, CancelledCategory, "cancelled_by_caller"))
  {
    hide FromSandbox, SettledResult, BlockedResult, MountPolicyViolation, Strip, SafeName, RawRunId, Stopped, AcceptReasons;
    var check := checks[i];
    if check.command.Some? && !Stopped(batch, checks, i) {
      var request := RequestFor(batch, i, check);
      match MountPolicyViolation(request)
      case Some(violation) =>
        BlockedIsOk(request, request.runId);
        FromSandboxIsOk(check, BlockedResult(request.runId, violation), batch.code);
      case None =>
        var script := batch.scripts(i);
        FirstReasonStays(None, script.before);
        FirstReasonStays(AcceptReasons(None, script.before), script.during);
        SettledIsOk(request.runId, None, script);
        FromSandboxIsOk(check, SettledResult(request.runId, None, script), batch.code);
    }
  }

  /**
   Every launched container runs the command of its own check in the batch's image, and mounts the
   batch's worktree and caches where the batch says.
   */
  lemma LaunchesRunTheirChecks(batch: Batch, checks: seq<Check>, k: nat) returns (i: nat)
    requires k < |Launches(batch, checks, |checks|)|
    ensures i < |checks| && checks[i].command.Some?
    ensures
      var request := Launches(batch, checks, |checks|)[k];
      && request.command == checks[i].command.value && request.image == batch.image
      && request.worktreeRoot == batch.worktreeRoot && request.repositoryRoot == batch.repositoryRoot
      && request.containerMountPath == batch.containerMountPath && request.cacheMounts == batch.cacheMounts
      && request.runId == Strip(batch.prefix + "-" + Decimal(i) + "-" + checks[i].name)
  {
    hide Launches, Strip;
    i := LaunchedBy(batch, checks, |checks|, k);
    assert batch.prefix + ("-" + Decimal(i) + "-" + checks[i].name)
        == batch.prefix + "-" + Decimal(i) + "-" + checks[i].name;
  }

  /** Where the `k`-th launched container comes from. */
  lemma {:induction false} LaunchedBy(batch: Batch, checks: seq<Check>, n: nat, k: nat) returns (i: nat)
    requires n <= |checks| && k < |Launches(batch, checks, n)|
    ensures i < n && checks[i].command.Some? && k == |Launches(batch, checks, i)|
    ensures Launches(batch, checks, n)[k] == RequestFor(batch, i, checks[i])
    decreases n
  {
    hide MountPolicyViolation, RequestFor, Stopped;
    i := n - 1;
    if k < |Launches(batch, checks, n - 1)| {
      i := LaunchedBy(batch, checks, n - 1, k);
    }
  }

  /** All launched containers have different names, even if checks share a name. */
  lemma ContainersDiffer(batch: Batch, checks: seq<Check>, k: nat, l: nat)
    requires forall check | check in checks :: CheckOk(check)
    requires k < l < |Launches(batch, checks, |checks|)|
    ensures ContainerName(Launches(batch, checks, |checks|)[k].runId) != ContainerName(Launches(batch, checks, |checks|)[l].runId)
  {
    hide Launches, CheckOk, SafeName, RawRunId, Strip;
    var i := LaunchedBy(batch, checks, |checks|, k);
    var j := LaunchedBy(batch, checks, |checks|, l);
    var a, b := RequestFor(batch, i, checks[i]).runId, RequestFor(batch, j, checks[j]).runId;
    if ContainerName(a) == ContainerName(b) {
      assert ContainerName(a)[|"gmai-sandbox-"|..] == a && ContainerName(b)[|"gmai-sandbox-"|..] == b;
      NamesOk(checks, i);
      NamesOk(checks, j);
      RunIdsDiffer(batch.prefix, i, checks[i].name, j, checks[j].name);
    }
  }

  lemma NamesOk(checks: seq<Check>, i: nat)
    requires i < |checks| && forall check | check in checks :: CheckOk(check)
    ensures SafeName(checks[i].name, 64)
  {
    hide SafeName;
    assert CheckOk(checks[i]);
  }

  /** No container that a batch launches sees any part of the repository. */
  lemma LaunchedContainersHideRepository(batch: Batch, checks: seq<Check>, i: nat)
    requires BatchOk(batch) && Requested(batch, checks, i) && CheckOk(checks[i]) && RunIdFits(batch, checks, i)
    requires MountPolicyViolation(RequestFor(batch, i, checks[i])).None?
    ensures RepositoryHidden(RequestFor(batch, i, checks[i]))
  {
    hide MountPolicyViolation, RepositoryHidden, Strip, SafeName, RawRunId, PartsOf, AbsoluteNormal, Stopped;
    PolicyHidesRepository(RequestFor(batch, i, checks[i]));
  }
}
