/**
 One iteration of the orchestrator's loop, as a function of the loaded run and of what the
 outside world answers: the run that the iteration is going to save, or the exception it raises.
 */
module WorkflowStages {
  import opened Wrappers
  import opened Text
  import opened WorkRuns
  import opened CheckpointValidation
  import opened WorkItems

  datatype Config = Config(
    rules: Rules, hash: string -> string, actorId: string, maxCycles: nat, toolNames: seq<string>)

  datatype Outcome =
    | OutcomeCompleted | OutcomeBlocked | OutcomeFailed | OutcomeCancelled | OutcomeTimedOut | OutcomeExhausted

  function OutcomeText(o: Outcome): string {
    match o
    case OutcomeCompleted => "completed"
    case OutcomeBlocked => "blocked"
    case OutcomeFailed => "failed"
    case OutcomeCancelled => "cancelled"
    case OutcomeTimedOut => "timed_out"
    case OutcomeExhausted => "resource_exhausted"
  }

  datatype PolicyDecision = PolicyDecision(allowed: bool, reason: string)

  datatype ExecutedFile = ExecutedFile(relativePath: string, contentSha256: string)

  datatype Execution = Execution(files: seq<ExecutedFile>, outcome: Outcome)

  datatype Verdict = Verdict(passed: bool, artifacts: seq<Artifact>)

  /**
   The answers of one iteration. `None` is a port that raised; `times` are the successive
   clock readings, and a clock read beyond them raises.
   */
  datatype Response = Response(
    times: seq<Reading>,
    policy: Option<PolicyDecision>,
    execution: Option<Execution>,
    verification: Option<Verdict>,
    remediation: Option<seq<Artifact>>,
    publication: Option<string>)

  /** Artifacts handed over by a port are objects that passed their constructor. */
  predicate ResponseOk(rules: Rules, r: Response) {
    && (r.verification.Some? ==> ArtifactsOk(rules, r.verification.value.artifacts))
    && (r.remediation.Some? ==> ArtifactsOk(rules, r.remediation.value))
  }

  function Rest(times: seq<Reading>): seq<Reading> {
    if times == [] then [] else times[1..]
  }

  function NextTime(run: WorkRun, times: seq<Reading>): Result<Reading, Fault>
    requires run.events != []
  {
    if times == [] then Err(PortFault)
    else if times[0].Naive? then Err(IntegrityFault)
    else if times[0].instant < run.events[|run.events| - 1].at then Err(IntegrityFault)
    else Ok(times[0])
  }

  function TimedTransition(
    cfg: Config, run: WorkRun, target: State, times: seq<Reading>, details: Details): Result<WorkRun, Fault>
    requires run.events != []
  {
    var at :- NextTime(run, times);
    TransitionTo(cfg.rules, run, target, cfg.actorId, at, details)
  }

  function FailFrom(cfg: Config, run: WorkRun, stage: string, code: string, times: seq<Reading>): Result<WorkRun, Fault>
    requires run.events != []
  {
    TimedTransition(cfg, run, Failed, times, [("failure_code", code), ("stage", stage)])
  }

  function TimedAttach(cfg: Config, run: WorkRun, artifact: Artifact, times: seq<Reading>): Result<WorkRun, Fault>
    requires run.events != []
  {
    var at :- NextTime(run, times);
    AttachArtifact(cfg.rules, run, artifact, cfg.actorId, at)
  }

  /** Attaches in order and stops at the first failure; also the clock readings left over. */
  function AttachAll(cfg: Config, run: WorkRun, artifacts: seq<Artifact>, times: seq<Reading>)
    : (r: (Result<WorkRun, Fault>, seq<Reading>))
    requires run.events != []
    ensures r.0.Ok? ==> r.0.value.events != []
    decreases |artifacts|
  {
    if artifacts == [] then (Ok(run), times)
    else
      match TimedAttach(cfg, run, artifacts[0], times)
      case Err(f) => (Err(f), Rest(times))
      case Ok(next) => AttachAll(cfg, next, artifacts[1..], Rest(times))
  }

  // ---------------------------------------------------------------- stages

  function StageRequest(cfg: Config, item: WorkItem, run: WorkRun): Result<ExecutionRequest, Fault>
    requires run.events != []
  {
    var request := ExecutionRequest(
      run.runId + ":execution:1",
      run.correlation.issueKey,
      run.correlation.revision,
      ContentOf(item),
      run.correlation.contentSha256,
      run.events[0].actor,
      cfg.toolNames);
    if RequestOk(cfg.hash, request) then Ok(request) else Err(ValidationFault)
  }

  function ToArtifacts(rules: Rules, executionId: string, files: seq<ExecutedFile>): Result<seq<Artifact>, Fault> {
    if files == [] then Ok([])
    else
      var front :- ToArtifacts(rules, executionId, files[..|files| - 1]);
      var file := files[|files| - 1];
      var last :- MakeArtifact(rules, Artifact(
        file.relativePath, "execution", "artifact://" + executionId + "/" + file.relativePath, Some(file.contentSha256)));
      Ok(front + [last])
  }

  /**
   Each executed file becomes one artifact, in order: named by its trimmed path, found under the
   execution's own address, with the digest of its content. One unfit file spoils all.
   */
  lemma {:induction false} ArtifactsAreFiles(rules: Rules, executionId: string, files: seq<ExecutedFile>)
    ensures
      var artifacts := ToArtifacts(rules, executionId, files);
      && (artifacts.Ok? <==> forall k | 0 <= k < |files| :: ArtifactOk(rules, FileArtifact(executionId, files[k])))
      && (artifacts.Ok? ==>
            && |artifacts.value| == |files|
            && forall k | 0 <= k < |files| :: artifacts.value[k] == FileArtifact(executionId, files[k]))
  {
    hide ArtifactOk, Strip;
    if files != [] {
      var front, file := files[..|files| - 1], files[|files| - 1];
      ArtifactsAreFiles(rules, executionId, front);
      assert files == front + [file];
      LiteralIsTrimmed("execution");
      assert "artifact:" + "//" == "artifact://";
      var all := forall k | 0 <= k < |files| :: ArtifactOk(rules, FileArtifact(executionId, files[k]));
      var some := forall k | 0 <= k < |front| :: ArtifactOk(rules, FileArtifact(executionId, front[k]));
      assert all <==> some && ArtifactOk(rules, FileArtifact(executionId, file));
    }
  }

  function FileArtifact(executionId: string, file: ExecutedFile): Artifact {
    Artifact(
      Strip(file.relativePath), "execution",
      Strip("artifact:" + "//" + executionId + "/" + file.relativePath), Some(file.contentSha256))
  }

  /** What follows a finished port call: attach its evidence, then decide where to go. */
  function Conclude(
    cfg: Config, run: WorkRun, stage: string, evidence: Result<seq<Artifact>, Fault>, times: seq<Reading>,
    target: State, failureCode: Option<string>)
    : Result<WorkRun, Fault>
    requires run.events != []
  {
    match evidence
    case Err(_) => FailFrom(cfg, run, stage, "operation_failed", times)
    case Ok(artifacts) =>
      match AttachAll(cfg, run, artifacts, times)
      case (Err(_), rest) => FailFrom(cfg, run, stage, "operation_failed", rest)
      case (Ok(updated), rest) =>
        match failureCode
        case Some(code) => FailFrom(cfg, updated, stage, code, rest)
        case None => TimedTransition(cfg, updated, target, rest, [])
  }

  function Execute(cfg: Config, item: WorkItem, run: WorkRun, r: Response): Result<WorkRun, Fault>
    requires run.events != []
  {
    var request :- StageRequest(cfg, item, run);
    match r.policy
    case None => Err(PortFault)
    case Some(decision) =>
      if !decision.allowed then
        TimedTransition(
          cfg, run, Blocked, r.times, [("failure_code", "policy_denied"), ("summary", decision.reason)])
      else
        match r.execution
        case None => Conclude(cfg, run, "execution", Err(PortFault), r.times, Verifying, None)
        case Some(execution) =>
          Conclude(
            cfg, run, "execution", ToArtifacts(cfg.rules, request.executionId, execution.files), r.times, Verifying,
            if execution.outcome.OutcomeCompleted? then None else Some("execution_" + OutcomeText(execution.outcome)))
  }

  function RemediationCount(run: WorkRun): nat {
    |Named(run.events, Entered(Remediating))|
  }

  function Verify(cfg: Config, run: WorkRun, r: Response): Result<WorkRun, Fault>
    requires run.events != []
  {
    var attempt := 1 + RemediationCount(run);
    match r.verification
    case None => Conclude(cfg, run, "verification", Err(PortFault), r.times, Remediating, None)
    case Some(verdict) =>
      if verdict.passed then
        Conclude(cfg, run, "verification", Ok(verdict.artifacts), r.times, PublishingDraftPr, None)
      else if attempt > cfg.maxCycles then
        Conclude(
          cfg, run, "verification", Ok(verdict.artifacts), r.times, Remediating, Some("remediation_limit_reached"))
      else
        Conclude(cfg, run, "verification", Ok(verdict.artifacts), r.times, Remediating, None)
  }

  function Remediate(cfg: Config, run: WorkRun, r: Response): Result<WorkRun, Fault>
    requires run.events != []
  {
    var evidence := match r.remediation case None => Err(PortFault) case Some(artifacts) => Ok(artifacts);
    Conclude(cfg, run, "remediation", evidence, r.times, Verifying, None)
  }

  function TimedRecord(cfg: Config, run: WorkRun, url: string, times: seq<Reading>): Result<WorkRun, Fault>
    requires run.events != []
  {
    var at :- NextTime(run, times);
    RecordDraftPr(cfg.rules, run, url, cfg.actorId, at)
  }

  function Publish(cfg: Config, run: WorkRun, r: Response): Result<WorkRun, Fault>
    requires run.events != []
  {
    match r.publication
    case None => FailFrom(cfg, run, "draft_pr_publication", "operation_failed", r.times)
    case Some(url) =>
      match TimedRecord(cfg, run, url, r.times)
      case Err(_) => FailFrom(cfg, run, "draft_pr_publication", "operation_failed", Rest(r.times))
      case Ok(updated) =>
        TimedTransition(cfg, updated, Completed, Rest(r.times), [])
  }

  /** The run that one pass of the loop saves in place of `run`, or the exception that ends it. */
  function Advance(cfg: Config, item: WorkItem, run: WorkRun, r: Response): Result<WorkRun, Fault>
    requires run.events != []
  {
    match run.state
    case Approved => TimedTransition(cfg, run, Executing, r.times, [])
    case Executing => Execute(cfg, item, run, r)
    case Verifying => Verify(cfg, run, r)
    case Remediating => Remediate(cfg, run, r)
    case PublishingDraftPr => Publish(cfg, run, r)
    case _ => Err(IntegrityFault)
  }

  // ---------------------------------------------------------------- what a stage does to a run

  /** A run that a store may hold: well-formed, and accepted when it is loaded again. */
  ghost predicate Sound(cfg: Config, run: WorkRun) {
    run.events != [] && Valid(cfg.rules, run) && Accepted(run)
  }

  /** `after` is `before` with exactly these artifacts attached, in order, and nothing else. */
  predicate WithEvidence(before: WorkRun, after: WorkRun, artifacts: seq<Artifact>) {
    && |after.events| == |before.events| + |artifacts|
    && before.events <= after.events
    && (forall j | 0 <= j < |artifacts| :: EvidenceAt(after, |before.events| + j, artifacts[j]))
    && after == before.(events := after.events, artifacts := before.artifacts + artifacts)
  }

  predicate EvidenceAt(run: WorkRun, i: int, artifact: Artifact) {
    && 0 <= i < |run.events|
    && run.events[i].name == ArtifactAttached
    && run.events[i].details == ArtifactDetails(artifact)
  }

  lemma AttachOne(cfg: Config, run: WorkRun, artifact: Artifact, times: seq<Reading>)
    requires Sound(cfg, run) && ArtifactOk(cfg.rules, artifact)
    requires TimedAttach(cfg, run, artifact, times).Ok?
    ensures
      var next := TimedAttach(cfg, run, artifact, times).value;
      && Sound(cfg, next) && Extends(run, next) && WithEvidence(run, next, [artifact])
      && (Clean(run) ==> Clean(next))
      && RemediationCount(next) == RemediationCount(run)
  {
    hide CorrelationOk, Producible, ArtifactOk, Lookup;
    hide Accepted, Invariant, DetailOk;
    var at := times[0];
    AttachEffect(cfg.rules, run, artifact, cfg.actorId, at);
    AttachKeeps(cfg.rules, run, artifact, cfg.actorId, at);
    ArtifactDetailsAreTrimmed(cfg.rules, artifact);
    var next := TimedAttach(cfg, run, artifact, times).value;
    NamedAppend(run.events, next.events[|run.events|], Entered(Remediating));
    assert EvidenceAt(next, |run.events|, artifact);
  }

  lemma EvidenceChain(a: WorkRun, b: WorkRun, c: WorkRun, first: Artifact, others: seq<Artifact>)
    requires WithEvidence(a, b, [first]) && WithEvidence(b, c, others)
    ensures WithEvidence(a, c, [first] + others)
  {
    var all := [first] + others;
    forall j | 0 <= j < |all|
      ensures EvidenceAt(c, |a.events| + j, all[j])
    {
      if j == 0 {
        assert EvidenceAt(b, |a.events| + 0, [first][0]);
      } else {
        assert EvidenceAt(c, |b.events| + (j - 1), others[j - 1]);
      }
    }
    assert a.artifacts + all == (a.artifacts + [first]) + others;
  }

  lemma {:induction false} AttachAllEffect(cfg: Config, run: WorkRun, artifacts: seq<Artifact>, times: seq<Reading>)
    requires Sound(cfg, run) && ArtifactsOk(cfg.rules, artifacts)
    requires AttachAll(cfg, run, artifacts, times).0.Ok?
    ensures
      var updated := AttachAll(cfg, run, artifacts, times).0.value;
      && Sound(cfg, updated) && WithEvidence(run, updated, artifacts)
      && (artifacts != [] ==> Extends(run, updated))
      && (Clean(run) ==> Clean(updated))
      && RemediationCount(updated) == RemediationCount(run)
    decreases |artifacts|
  {
    hide Valid, Accepted, AttachArtifact, ArtifactOk;
    if artifacts != [] {
      assert artifacts[0] in artifacts;
      AttachOne(cfg, run, artifacts[0], times);
      var next := TimedAttach(cfg, run, artifacts[0], times).value;
      AttachAllEffect(cfg, next, artifacts[1..], Rest(times));
      var updated := AttachAll(cfg, run, artifacts, times).0.value;
      EvidenceChain(run, next, updated, artifacts[0], artifacts[1..]);
      assert [artifacts[0]] + artifacts[1..] == artifacts;
    }
  }

  /** One permitted transition out of `run`, possibly after some evidence. */
  ghost predicate Progress(cfg: Config, run: WorkRun, next: WorkRun) {
    && Sound(cfg, next)
    && Extends(run, next)
    && Allowed(run.state, next.state)
    && next.events[|next.events| - 1].name == Entered(next.state)
    && (run.events != [] && Clean(run) ==> Clean(next))
    && RemediationCount(next) == RemediationCount(run) + if next.state.Remediating? then 1 else 0
  }

  lemma TransitionIsProgress(
    cfg: Config, run: WorkRun, target: State, actor: string, at: Reading, details: Details)
    requires Sound(cfg, run) && TransitionTo(cfg.rules, run, target, actor, at, details).Ok?
    ensures
      var next := TransitionTo(cfg.rules, run, target, actor, at, details).value;
      && Progress(cfg, run, next) && next.state == target
      && next == run.(state := target, events := run.events + [next.events[|run.events|]])
      && |next.events| == |run.events| + 1
  {
    hide Accepted, Invariant, Allowed, DetailOk;
    TransitionEffect(cfg.rules, run, target, actor, at, details);
    TransitionKeeps(cfg.rules, run, target, actor, at, details);
    var next := TransitionTo(cfg.rules, run, target, actor, at, details).value;
    NamedAppend(run.events, next.events[|run.events|], Entered(Remediating));
  }

  lemma TransitionProgress(cfg: Config, run: WorkRun, target: State, times: seq<Reading>, details: Details)
    requires Sound(cfg, run) && TimedTransition(cfg, run, target, times, details).Ok?
    ensures
      var next := TimedTransition(cfg, run, target, times, details).value;
      && Progress(cfg, run, next) && next.state == target
      && next == run.(state := target, events := run.events + [next.events[|run.events|]])
      && |next.events| == |run.events| + 1
  {
    hide Sound, Progress, TransitionTo;
    TransitionIsProgress(cfg, run, target, cfg.actorId, times[0], details);
  }

  /** Evidence first, then the transition: still one step of progress. */
  lemma ProgressAfterEvidence(cfg: Config, run: WorkRun, updated: WorkRun, next: WorkRun, artifacts: seq<Artifact>)
    requires WithEvidence(run, updated, artifacts) && (artifacts != [] ==> Extends(run, updated))
    requires RemediationCount(updated) == RemediationCount(run)
    requires run.events != [] && (Clean(run) ==> Clean(updated))
    requires Progress(cfg, updated, next)
    ensures Progress(cfg, run, next)
  {
    if artifacts != [] {
      ExtendsTransitive(run, updated, next);
    } else {
      assert updated.events == run.events;
      assert updated == run;
    }
  }

  /** Exactly the given evidence and then the transition into `target`. */
  predicate EvidenceThen(run: WorkRun, next: WorkRun, artifacts: seq<Artifact>, target: State) {
    && |next.events| == |run.events| + |artifacts| + 1
    && run.events <= next.events
    && (forall j | 0 <= j < |artifacts| :: EvidenceAt(next, |run.events| + j, artifacts[j]))
    && next.events[|next.events| - 1].name == Entered(target)
    && next == run.(state := target, events := next.events, artifacts := run.artifacts + artifacts)
  }

  lemma EvidenceThenTransition(run: WorkRun, updated: WorkRun, next: WorkRun, artifacts: seq<Artifact>)
    requires WithEvidence(run, updated, artifacts)
    requires |next.events| == |updated.events| + 1 && updated.events <= next.events
    requires next.events[|updated.events|].name == Entered(next.state)
    requires next == updated.(state := next.state, events := next.events)
    ensures EvidenceThen(run, next, artifacts, next.state)
  {
    assert forall j | 0 <= j < |artifacts| ::
        EvidenceAt(updated, |run.events| + j, artifacts[j]) ==> EvidenceAt(next, |run.events| + j, artifacts[j]);
  }

  /**
   A concluded stage fails, or attaches all of its evidence; with all of it attached the
   stage goes to its target, or fails with the code it was given.
   */
  lemma ConcludeProgress(
    cfg: Config, run: WorkRun, stage: string, evidence: Result<seq<Artifact>, Fault>, times: seq<Reading>,
    target: State, failureCode: Option<string>)
    requires Sound(cfg, run)
    requires evidence.Ok? ==> ArtifactsOk(cfg.rules, evidence.value)
    requires Conclude(cfg, run, stage, evidence, times, target, failureCode).Ok?
    ensures
      var next := Conclude(cfg, run, stage, evidence, times, target, failureCode).value;
      && Progress(cfg, run, next)
      && (next.state.Failed? || next.state == target)
      && (evidence.Ok? && AttachAll(cfg, run, evidence.value, times).0.Ok? ==>
            EvidenceThen(run, next, evidence.value, if failureCode.Some? then Failed else target))
      && (!(evidence.Ok? && AttachAll(cfg, run, evidence.value, times).0.Ok?) ==>
            EvidenceThen(run, next, [], Failed))
  {
    hide Valid, Accepted, ArtifactsOk, TransitionTo, AttachAll;
    var next := Conclude(cfg, run, stage, evidence, times, target, failureCode).value;
    if evidence.Ok? && AttachAll(cfg, run, evidence.value, times).0.Ok? {
      AttachAllEffect(cfg, run, evidence.value, times);
      var (attached, rest) := AttachAll(cfg, run, evidence.value, times);
      var updated := attached.value;
      ConcludeTransition(cfg, updated, stage, rest, target, failureCode);
      ProgressAfterEvidence(cfg, run, updated, next, evidence.value);
      EvidenceThenTransition(run, updated, next, evidence.value);
    } else {
      var rest := if evidence.Ok? then AttachAll(cfg, run, evidence.value, times).1 else times;
      TransitionProgress(cfg, run, Failed, rest, [("failure_code", "operation_failed"), ("stage", stage)]);
      assert run.artifacts + [] == run.artifacts;
    }
  }

  lemma ConcludeTransition(
    cfg: Config, updated: WorkRun, stage: string, rest: seq<Reading>, target: State, failureCode: Option<string>)
    requires Sound(cfg, updated)
    ensures
      var result := match failureCode
        case Some(code) => FailFrom(cfg, updated, stage, code, rest)
        case None => TimedTransition(cfg, updated, target, rest, []);
      result.Ok? ==>
        var next := result.value;
        && Progress(cfg, updated, next)
        && next.state == (if failureCode.Some? then Failed else target)
        && |next.events| == |updated.events| + 1
        && next == updated.(state := next.state, events := next.events)
  {
    match failureCode
    case Some(code) =>
      if FailFrom(cfg, updated, stage, code, rest).Ok? {
        TransitionProgress(cfg, updated, Failed, rest, [("failure_code", code), ("stage", stage)]);
      }
    case None =>
      if TimedTransition(cfg, updated, target, rest, []).Ok? {
        TransitionProgress(cfg, updated, target, rest, []);
      }
  }

  lemma {:induction false} ToArtifactsOk(rules: Rules, executionId: string, files: seq<ExecutedFile>)
    requires ToArtifacts(rules, executionId, files).Ok?
    ensures ArtifactsOk(rules, ToArtifacts(rules, executionId, files).value)
  {
    if files != [] {
      ToArtifactsOk(rules, executionId, files[..|files| - 1]);
      var file := files[|files| - 1];
      StripIsTrimmed("artifact://" + executionId + "/" + file.relativePath);
    }
  }

  lemma ExecuteProgress(cfg: Config, item: WorkItem, run: WorkRun, r: Response)
    requires Sound(cfg, run) && Execute(cfg, item, run, r).Ok?
    ensures
      var next := Execute(cfg, item, run, r).value;
      Progress(cfg, run, next) && (next.state.Blocked? || next.state.Failed? || next.state.Verifying?)
  {
    var request := StageRequest(cfg, item, run).value;
    var decision := r.policy.value;
    if !decision.allowed {
      TransitionProgress(
        cfg, run, Blocked, r.times, [("failure_code", "policy_denied"), ("summary", decision.reason)]);
    } else if r.execution.None? {
      ConcludeProgress(cfg, run, "execution", Err(PortFault), r.times, Verifying, None);
    } else {
      var execution := r.execution.value;
      var evidence := ToArtifacts(cfg.rules, request.executionId, execution.files);
      if evidence.Ok? {
        ToArtifactsOk(cfg.rules, request.executionId, execution.files);
      }
      ConcludeProgress(
        cfg, run, "execution", evidence, r.times, Verifying,
        if execution.outcome.OutcomeCompleted? then None else Some("execution_" + OutcomeText(execution.outcome)));
    }
  }

  /**
   The verification stage: publishing is entered only on a passed verdict, and remediation only
   while attempts are left; a third way out is failure. Whatever is saved in those two cases is
   the verified run plus the verifier's own evidence.
   */
  lemma VerifyProgress(cfg: Config, run: WorkRun, r: Response)
    requires Sound(cfg, run) && ResponseOk(cfg.rules, r) && Verify(cfg, run, r).Ok?
    ensures
      var next := Verify(cfg, run, r).value;
      && Progress(cfg, run, next)
      && (next.state.Failed? || next.state.PublishingDraftPr? || next.state.Remediating?)
      && (next.state.PublishingDraftPr? ==>
            && r.verification.Some? && r.verification.value.passed
            && EvidenceThen(run, next, r.verification.value.artifacts, PublishingDraftPr))
      && (next.state.Remediating? ==>
            && r.verification.Some? && !r.verification.value.passed
            && RemediationCount(run) < cfg.maxCycles
            && EvidenceThen(run, next, r.verification.value.artifacts, Remediating))
  {
    if r.verification.None? {
      ConcludeProgress(cfg, run, "verification", Err(PortFault), r.times, Remediating, None);
    } else {
      var verdict := r.verification.value;
      var overLimit := 1 + RemediationCount(run) > cfg.maxCycles;
      ConcludeProgress(
        cfg, run, "verification", Ok(verdict.artifacts), r.times,
        if verdict.passed then PublishingDraftPr else Remediating,
        if !verdict.passed && overLimit then Some("remediation_limit_reached") else None);
    }
  }

  lemma RemediateProgress(cfg: Config, run: WorkRun, r: Response)
    requires Sound(cfg, run) && ResponseOk(cfg.rules, r) && Remediate(cfg, run, r).Ok?
    ensures
      var next := Remediate(cfg, run, r).value;
      Progress(cfg, run, next) && (next.state.Failed? || next.state.Verifying?)
  {
    var evidence := match r.remediation case None => Err(PortFault) case Some(artifacts) => Ok(artifacts);
    ConcludeProgress(cfg, run, "remediation", evidence, r.times, Verifying, None);
  }

  /** Publication completes the run with the URL it recorded, or fails it. */
  lemma PublishProgress(cfg: Config, run: WorkRun, r: Response)
    requires Sound(cfg, run) && run.state.PublishingDraftPr? && Publish(cfg, run, r).Ok?
    ensures
      var next := Publish(cfg, run, r).value;
      && Progress(cfg, run, next)
      && (next.state.Failed? || next.state.Completed?)
      && (next.state.Completed? ==>
            r.publication.Some? && next.draftPrUrl == Some(Strip(r.publication.value)) && run.draftPrUrl.None?)
  {
    var next := Publish(cfg, run, r).value;
    var failure := [("failure_code", "operation_failed"), ("stage", "draft_pr_publication")];
    if r.publication.None? {
      TransitionProgress(cfg, run, Failed, r.times, failure);
    } else {
      var url := r.publication.value;
      var recorded := TimedRecord(cfg, run, url, r.times);
      if recorded.Err? {
        TransitionProgress(cfg, run, Failed, Rest(r.times), failure);
      } else {
        var updated := recorded.value;
        RecordEffect(cfg.rules, run, url, cfg.actorId, r.times[0]);
        RecordKeeps(cfg.rules, run, url, cfg.actorId, r.times[0]);
        TransitionProgress(cfg, updated, Completed, Rest(r.times), []);
        ExtendsTransitive(run, updated, next);
        NamedAppend(run.events, updated.events[|run.events|], Entered(Remediating));
      }
    }
  }

  /** Every saved iteration is one step of progress, whatever the ports answer. */
  lemma AdvanceProgress(cfg: Config, item: WorkItem, run: WorkRun, r: Response)
    requires Sound(cfg, run) && ResponseOk(cfg.rules, r) && Advance(cfg, item, run, r).Ok?
    ensures
      var next := Advance(cfg, item, run, r).value;
      && Progress(cfg, run, next)
      && (next.state.Remediating? ==> RemediationCount(run) < cfg.maxCycles)
      && (next.state.PublishingDraftPr? ==>
            && run.state.Verifying? && r.verification.Some? && r.verification.value.passed
            && EvidenceThen(run, next, r.verification.value.artifacts, PublishingDraftPr))
      && (next.state.Completed? ==>
            && run.state.PublishingDraftPr? && r.publication.Some?
            && next.draftPrUrl == Some(Strip(r.publication.value)))
      && !next.state.Cancelled?
  {
    match run.state
    case Approved => TransitionProgress(cfg, run, Executing, r.times, []);
    case Executing => ExecuteProgress(cfg, item, run, r);
    case Verifying => VerifyProgress(cfg, run, r);
    case Remediating => RemediateProgress(cfg, run, r);
    case PublishingDraftPr => PublishProgress(cfg, run, r);
    case _ =>
  }

  // ---------------------------------------------------------------- what decides, and what is kept

  /** The evidence that a stage's port handed over. */
  function StageEvidence(cfg: Config, run: WorkRun, r: Response): seq<Artifact> {
    match run.state
    case Executing =>
      if r.policy.Some? && r.policy.value.allowed && r.execution.Some? then
        match ToArtifacts(cfg.rules, run.runId + ":execution:1", r.execution.value.files)
        case Ok(artifacts) => artifacts
        case Err(_) => []
      else []
    case Verifying => if r.verification.Some? then r.verification.value.artifacts else []
    case Remediating => if r.remediation.Some? then r.remediation.value else []
    case _ => []
  }

  /** All of the evidence is kept, or none of it and the run has failed. */
  predicate KeepsEvidence(run: WorkRun, next: WorkRun, evidence: seq<Artifact>) {
    || next.artifacts == run.artifacts + evidence
    || (next.state.Failed? && next.artifacts == run.artifacts)
  }

  lemma ConcludeKeeps(
    cfg: Config, run: WorkRun, stage: string, evidence: Result<seq<Artifact>, Fault>, times: seq<Reading>,
    target: State, failureCode: Option<string>)
    requires Sound(cfg, run) && (evidence.Ok? ==> ArtifactsOk(cfg.rules, evidence.value))
    requires Conclude(cfg, run, stage, evidence, times, target, failureCode).Ok?
    ensures
      var next := Conclude(cfg, run, stage, evidence, times, target, failureCode).value;
      && KeepsEvidence(run, next, if evidence.Ok? then evidence.value else [])
      && (next.state == target && !target.Failed? ==> evidence.Ok? && failureCode.None?)
      && (evidence.Ok? && AttachAll(cfg, run, evidence.value, times).0.Ok? ==>
            next.state == if failureCode.Some? then Failed else target)
  {
    hide Sound, Conclude, AttachAll, Progress, ArtifactsOk, EvidenceAt;
    ConcludeProgress(cfg, run, stage, evidence, times, target, failureCode);
    assert run.artifacts + [] == run.artifacts;
  }

  /**
   What the execution stage decides on: a denied run is blocked without running anything, and
   verification is reached only through an allowed execution that completed.
   */
  lemma ExecuteDecides(cfg: Config, item: WorkItem, run: WorkRun, r: Response)
    requires Sound(cfg, run) && run.state.Executing? && Execute(cfg, item, run, r).Ok?
    ensures
      var next := Execute(cfg, item, run, r).value;
      && StageRequest(cfg, item, run).Ok? && r.policy.Some?
      && (next.state.Blocked? <==> !r.policy.value.allowed)
      && (next.state.Verifying? ==> r.execution.Some? && r.execution.value.outcome.OutcomeCompleted?)
      && KeepsEvidence(run, next, StageEvidence(cfg, run, r))
  {
    hide Sound, Conclude, AttachAll, Progress, ArtifactsOk, KeepsEvidence, ToArtifacts, RequestOk;
    var decision := r.policy.value;
    if !decision.allowed {
      var details := [("failure_code", "policy_denied"), ("summary", decision.reason)];
      TransitionProgress(cfg, run, Blocked, r.times, details);
      NothingIsKept(run, Execute(cfg, item, run, r).value);
    } else if r.execution.None? {
      ConcludeKeeps(cfg, run, "execution", Err(PortFault), r.times, Verifying, None);
      ConcludeProgress(cfg, run, "execution", Err(PortFault), r.times, Verifying, None);
    } else {
      var execution := r.execution.value;
      var evidence := ToArtifacts(cfg.rules, run.runId + ":execution:1", execution.files);
      var code := if execution.outcome.OutcomeCompleted? then None else Some("execution_" + OutcomeText(execution.outcome));
      if evidence.Ok? {
        ToArtifactsOk(cfg.rules, run.runId + ":execution:1", execution.files);
      }
      ConcludeKeeps(cfg, run, "execution", evidence, r.times, Verifying, code);
      ConcludeProgress(cfg, run, "execution", evidence, r.times, Verifying, code);
    }
  }

  lemma NothingIsKept(run: WorkRun, next: WorkRun)
    requires next.artifacts == run.artifacts
    ensures KeepsEvidence(run, next, [])
  {
    assert run.artifacts + [] == run.artifacts;
  }

  /**
   What the verification stage decides on: once the evidence is attached, the verdict and the
   attempts left determine the next state.
   */
  lemma VerifyDecides(cfg: Config, run: WorkRun, r: Response)
    requires Sound(cfg, run) && run.state.Verifying? && ResponseOk(cfg.rules, r) && Verify(cfg, run, r).Ok?
    ensures
      var next := Verify(cfg, run, r).value;
      && KeepsEvidence(run, next, StageEvidence(cfg, run, r))
      && (r.verification.None? ==> next.state.Failed?)
      && (r.verification.Some? && AttachAll(cfg, run, r.verification.value.artifacts, r.times).0.Ok? ==>
            next.state ==
            if r.verification.value.passed then PublishingDraftPr
            else if RemediationCount(run) < cfg.maxCycles then Remediating
            else Failed)
  {
    hide Sound, Conclude, AttachAll, Progress, ArtifactsOk, KeepsEvidence, RemediationCount;
    if r.verification.None? {
      ConcludeKeeps(cfg, run, "verification", Err(PortFault), r.times, Remediating, None);
      ConcludeProgress(cfg, run, "verification", Err(PortFault), r.times, Remediating, None);
    } else {
      var verdict := r.verification.value;
      var overLimit := 1 + RemediationCount(run) > cfg.maxCycles;
      ConcludeKeeps(
        cfg, run, "verification", Ok(verdict.artifacts), r.times,
        if verdict.passed then PublishingDraftPr else Remediating,
        if !verdict.passed && overLimit then Some("remediation_limit_reached") else None);
    }
  }

  lemma RemediateDecides(cfg: Config, run: WorkRun, r: Response)
    requires Sound(cfg, run) && run.state.Remediating? && ResponseOk(cfg.rules, r) && Remediate(cfg, run, r).Ok?
    ensures
      var next := Remediate(cfg, run, r).value;
      && KeepsEvidence(run, next, StageEvidence(cfg, run, r))
      && (next.state.Verifying? ==> r.remediation.Some?)
  {
    hide Sound, Conclude, AttachAll, Progress, ArtifactsOk, KeepsEvidence;
    var evidence := match r.remediation case None => Err(PortFault) case Some(artifacts) => Ok(artifacts);
    ConcludeKeeps(cfg, run, "remediation", evidence, r.times, Verifying, None);
  }

  /** Publication and the first step add no evidence. */
  lemma PublishKeeps(cfg: Config, run: WorkRun, r: Response)
    requires Sound(cfg, run) && run.state.PublishingDraftPr? && Publish(cfg, run, r).Ok?
    ensures Publish(cfg, run, r).value.artifacts == run.artifacts
  {
    hide Accepted, Invariant, MakeEvent, CorrelationOk, EventsProducible, ArtifactsOk;
  }

  /** Every pass keeps all of its stage's evidence, or none of it and fails. */
  lemma AdvanceKeeps(cfg: Config, item: WorkItem, run: WorkRun, r: Response)
    requires Sound(cfg, run) && ResponseOk(cfg.rules, r) && Advance(cfg, item, run, r).Ok?
    ensures KeepsEvidence(run, Advance(cfg, item, run, r).value, StageEvidence(cfg, run, r))
    ensures
      var next := Advance(cfg, item, run, r).value;
      next.state.Verifying? ==>
        || (run.state.Remediating? && r.remediation.Some?)
        || (&& run.state.Executing? && r.policy.Some? && r.policy.value.allowed
            && r.execution.Some? && r.execution.value.outcome.OutcomeCompleted?)
  {
    hide Valid, Accepted, ResponseOk, Execute, Verify, Remediate, Publish, TimedTransition, ToArtifacts, KeepsEvidence;
    var next := Advance(cfg, item, run, r).value;
    match run.state
    case Approved =>
      TransitionProgress(cfg, run, Executing, r.times, []);
      NothingIsKept(run, next);
    case Executing => ExecuteDecides(cfg, item, run, r);
    case Verifying =>
      VerifyDecides(cfg, run, r);
      VerifyProgress(cfg, run, r);
    case Remediating => RemediateDecides(cfg, run, r);
    case PublishingDraftPr =>
      PublishKeeps(cfg, run, r);
      PublishProgress(cfg, run, r);
      NothingIsKept(run, next);
    case _ =>
  }

  // ---------------------------------------------------------------- how many saves are left

  function CyclesLeft(cfg: Config, run: WorkRun): nat {
    if RemediationCount(run) < cfg.maxCycles then cfg.maxCycles - RemediationCount(run) else 0
  }

  /** An upper bound on the saves that can still follow this one. */
  function SavesLeft(cfg: Config, run: WorkRun): nat {
    match run.state
    case Approved => 2 * CyclesLeft(cfg, run) + 4
    case Executing => 2 * CyclesLeft(cfg, run) + 3
    case Verifying => 2 * CyclesLeft(cfg, run) + 2
    case Remediating => 2 * CyclesLeft(cfg, run) + 3
    case PublishingDraftPr => 1
    case _ => 0
  }

  /** Every save uses up at least one, whoever makes it. */
  lemma ProgressSpends(cfg: Config, run: WorkRun, next: WorkRun)
    requires Progress(cfg, run, next) && (next.state.Remediating? ==> RemediationCount(run) < cfg.maxCycles)
    ensures SavesLeft(cfg, next) < SavesLeft(cfg, run)
  {
    hide Sound, Clean, RemediationCount;
  }
}
