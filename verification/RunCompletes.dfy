/** Exactly when the loop takes a run to completion, told from the answers of its ports. */
module RunCompletes {
  import opened Wrappers
  import opened Text
  import opened WorkRuns
  import opened CheckpointValidation
  import opened WorkItems
  import opened WorkflowStages
  import opened OutcomeReports
  import opened RunHistories
  import opened ReadableRuns
  import opened CheckpointStore
  import opened WorkflowRunner

  // ---------------------------------------------------------------- evidence

  /** Reading number `i` is an instant, and none earlier than what was stamped before it. */
  predicate TickAt(run: WorkRun, times: seq<Reading>, i: int)
    requires run.events != []
  {
    && 0 <= i < |times| && times[i].Aware?
    && if i == 0 then run.events[|run.events| - 1].at <= times[0].instant
       else times[i - 1].Aware? && times[i - 1].instant <= times[i].instant
  }

  /** The clock serves for `n` events. */
  predicate Ticks(run: WorkRun, times: seq<Reading>, n: nat)
    requires run.events != []
  {
    forall i | 0 <= i < n :: TickAt(run, times, i)
  }

  /** The audit log takes every field of an artifact. */
  predicate Auditable(rules: Rules, a: Artifact) {
    && !rules.sensitive("artifact_id") && SafeValue(rules, a.id)
    && !rules.sensitive("kind") && SafeValue(rules, a.kind)
    && !rules.sensitive("uri") && SafeValue(rules, a.uri)
    && (a.sha256.Some? ==> !rules.sensitive("sha256") && SafeValue(rules, a.sha256.value))
  }

  /** An artifact under an id that neither the run nor an artifact before it has. */
  predicate NewAt(run: WorkRun, artifacts: seq<Artifact>, i: int) {
    && 0 <= i < |artifacts|
    && !HasArtifact(run, artifacts[i].id)
    && forall j | 0 <= j < i :: artifacts[j].id != artifacts[i].id
  }

  predicate Attachable(rules: Rules, run: WorkRun, artifacts: seq<Artifact>) {
    forall i | 0 <= i < |artifacts| :: NewAt(run, artifacts, i) && Auditable(rules, artifacts[i])
  }

  lemma KeysAreIdentifiers()
    ensures IsIdentifier("artifact_id") && IsIdentifier("kind") && IsIdentifier("uri") && IsIdentifier("sha256")
    ensures IsIdentifier("draft_pr_url")
  {
    var id, url := "artifact_id", "draft_pr_url";
    assert |id| == 11 && |url| == 12;
  }

  lemma AuditableIsOk(rules: Rules, a: Artifact)
    requires ArtifactOk(rules, a)
    ensures
      Auditable(rules, a)
      <==> forall i | 0 <= i < |ArtifactDetails(a)| :: DetailOk(rules, ArtifactDetails(a)[i])
  {
    hide IsIdentifier, SafeValue, Strip, IsSha256;
    KeysAreIdentifiers();
    ArtifactDetailsAreTrimmed(rules, a);
    var details := ArtifactDetails(a);
    var trimmed := TrimDetails(details);
    assert details[0] == ("artifact_id", a.id) && trimmed[0] == details[0];
    assert details[1] == ("kind", a.kind) && trimmed[1] == details[1];
    assert details[2] == ("uri", a.uri) && trimmed[2] == details[2];
    if a.sha256.Some? {
      assert details[3] == ("sha256", a.sha256.value) && trimmed[3] == details[3];
    }
  }

  lemma OneAttach(cfg: Config, run: WorkRun, a: Artifact, times: seq<Reading>)
    requires Sound(cfg, run) && !Terminal(run.state) && ArtifactOk(cfg.rules, a)
    ensures
      var result := TimedAttach(cfg, run, a, times);
      && (result.Ok? <==>
            && !HasArtifact(run, a.id) && Auditable(cfg.rules, a) && TickAt(run, times, 0)
            && IsIdentifier(Strip(cfg.actorId)))
      && (result.Ok? ==>
            var next := result.value;
            && Sound(cfg, next) && next.state == run.state
            && next.events[|next.events| - 1].at == times[0].instant
            && next.artifacts == run.artifacts + [a])
  {
    hide Accepted, Invariant, Auditable, DetailOk, ArtifactOk, CorrelationOk, EventsProducible, HasArtifact, IsIdentifier;
    hide AttachArtifact, ArtifactDetails, TrimDetails, Extends;
    AuditableIsOk(cfg.rules, a);
    ArtifactDetailsAreTrimmed(cfg.rules, a);
    if times != [] {
      AttachEffect(cfg.rules, run, a, cfg.actorId, times[0]);
      if TimedAttach(cfg, run, a, times).Ok? {
        AttachOne(cfg, run, a, times);
      }
    }
  }

  /** What is left to attach after the first artifact, with the readings left. */
  lemma AttachableNext(rules: Rules, run: WorkRun, next: WorkRun, artifacts: seq<Artifact>)
    requires artifacts != [] && next.artifacts == run.artifacts + [artifacts[0]]
    ensures
      Attachable(rules, run, artifacts)
      <==> && !HasArtifact(run, artifacts[0].id) && Auditable(rules, artifacts[0])
           && Attachable(rules, next, artifacts[1..])
  {
    hide Auditable;
    var rest := artifacts[1..];
    forall id: string
      ensures HasArtifact(next, id) <==> HasArtifact(run, id) || artifacts[0].id == id
    {
      HasOneMore(run, next, artifacts[0], id);
    }
    forall i | 0 <= i < |rest|
      ensures NewAt(next, rest, i) <==> NewAt(run, artifacts, i + 1)
    {
      assert forall j | 0 <= j < i :: rest[j] == artifacts[j + 1];
      assert rest[i] == artifacts[i + 1];
      assert NewAt(run, artifacts, i + 1) ==> artifacts[0].id != artifacts[i + 1].id;
      if NewAt(next, rest, i) {
        forall j | 0 <= j < i + 1
          ensures artifacts[j].id != artifacts[i + 1].id
        {
          assert j > 0 ==> rest[j - 1] == artifacts[j];
        }
      }
    }
    if Attachable(rules, run, artifacts) {
      assert NewAt(run, artifacts, 0);
      forall i | 0 <= i < |rest|
        ensures NewAt(next, rest, i) && Auditable(rules, rest[i])
      {
        assert NewAt(run, artifacts, i + 1);
      }
    }
    if !HasArtifact(run, artifacts[0].id) && Auditable(rules, artifacts[0]) && Attachable(rules, next, rest) {
      forall i | 0 <= i < |artifacts|
        ensures NewAt(run, artifacts, i) && Auditable(rules, artifacts[i])
      {
        if i > 0 {
          assert NewAt(next, rest, i - 1) && rest[i - 1] == artifacts[i];
        }
      }
    }
  }

  lemma HasOneMore(run: WorkRun, next: WorkRun, a: Artifact, id: string)
    requires next.artifacts == run.artifacts + [a]
    ensures HasArtifact(next, id) <==> HasArtifact(run, id) || a.id == id
  {
    if HasArtifact(run, id) {
      var i :| 0 <= i < |run.artifacts| && run.artifacts[i].id == id;
      assert next.artifacts[i].id == id;
    }
    if a.id == id {
      assert next.artifacts[|run.artifacts|].id == id;
    }
  }

  lemma TicksNext(run: WorkRun, next: WorkRun, times: seq<Reading>, n: nat)
    requires run.events != [] && next.events != [] && TickAt(run, times, 0)
    requires times != [] && times[0].Aware? && next.events[|next.events| - 1].at == times[0].instant
    ensures Ticks(run, times, n + 1) <==> Ticks(next, times[1..], n)
  {
    hide TickAt;
    forall i | 0 <= i < n
      ensures TickAt(next, times[1..], i) <==> TickAt(run, times, i + 1)
    {
      TickNext(run, next, times, i);
    }
    if Ticks(run, times, n + 1) {
      forall i | 0 <= i < n
        ensures TickAt(next, times[1..], i)
      {
        assert TickAt(run, times, i + 1);
      }
    }
    if Ticks(next, times[1..], n) {
      forall i | 0 <= i < n + 1
        ensures TickAt(run, times, i)
      {
        assert i > 0 ==> TickAt(next, times[1..], i - 1);
      }
    }
  }

  lemma TickNext(run: WorkRun, next: WorkRun, times: seq<Reading>, i: nat)
    requires run.events != [] && next.events != [] && TickAt(run, times, 0)
    requires times != [] && times[0].Aware? && next.events[|next.events| - 1].at == times[0].instant
    ensures TickAt(next, times[1..], i) <==> TickAt(run, times, i + 1)
  {
  }

  /** The evidence is new, can be audited, and the clock serves for it. */
  predicate AttachServed(cfg: Config, run: WorkRun, artifacts: seq<Artifact>, times: seq<Reading>)
    requires run.events != []
  {
    && (artifacts == [] || IsIdentifier(Strip(cfg.actorId)))
    && Attachable(cfg.rules, run, artifacts)
    && Ticks(run, times, |artifacts|)
  }

  /** All evidence is attached exactly when it is new, can be audited, and the clock serves for it. */
  lemma {:induction false} AttachAllSucceeds(cfg: Config, run: WorkRun, artifacts: seq<Artifact>, times: seq<Reading>)
    requires Sound(cfg, run) && !Terminal(run.state) && ArtifactsOk(cfg.rules, artifacts)
    ensures
      var (attached, rest) := AttachAll(cfg, run, artifacts, times);
      && (attached.Ok? <==> AttachServed(cfg, run, artifacts, times))
      && (attached.Ok? ==>
            && Sound(cfg, attached.value) && attached.value.state == run.state
            && |artifacts| <= |times| && rest == times[|artifacts|..]
            && (Ticks(run, times, |artifacts| + 1) <==> TickAt(attached.value, rest, 0)))
    decreases |artifacts|
  {
    hide Valid, Accepted, TimedAttach, ArtifactOk, IsIdentifier, Attachable, TickAt, Ticks, Auditable;
    if artifacts == [] {
      NoneAttached(cfg.rules, run, times);
      assert times[0..] == times;
    } else {
      var a, others := artifacts[0], artifacts[1..];
      assert ArtifactOk(cfg.rules, a);
      OneAttach(cfg, run, a, times);
      if AttachServed(cfg, run, artifacts, times) {
        FirstServed(cfg, run, artifacts, times);
      }
      if TimedAttach(cfg, run, a, times).Ok? {
        var next := TimedAttach(cfg, run, a, times).value;
        FirstTick(run, times);
        AttachAllSucceeds(cfg, next, others, times[1..]);
        AttachableNext(cfg.rules, run, next, artifacts);
        TicksNext(run, next, times, |others|);
        TicksNext(run, next, times, |others| + 1);
      }
    }
  }

  lemma FirstTick(run: WorkRun, times: seq<Reading>)
    requires run.events != [] && TickAt(run, times, 0)
    ensures times != [] && times[0].Aware?
  {
  }

  lemma NoneAttached(rules: Rules, run: WorkRun, times: seq<Reading>)
    requires run.events != []
    ensures Attachable(rules, run, []) && Ticks(run, times, 0) && (Ticks(run, times, 1) <==> TickAt(run, times, 0))
  {
    if TickAt(run, times, 0) {
      forall i | 0 <= i < 1
        ensures TickAt(run, times, i)
      {
        assert i == 0;
      }
    }
  }

  lemma FirstServed(cfg: Config, run: WorkRun, artifacts: seq<Artifact>, times: seq<Reading>)
    requires run.events != [] && artifacts != [] && AttachServed(cfg, run, artifacts, times)
    ensures
      && !HasArtifact(run, artifacts[0].id) && Auditable(cfg.rules, artifacts[0])
      && TickAt(run, times, 0) && IsIdentifier(Strip(cfg.actorId))
  {
    hide Auditable, TickAt, IsIdentifier, HasArtifact;
    assert NewAt(run, artifacts, 0);
  }

  // ---------------------------------------------------------------- one pass

  /** The orchestrator may act, the evidence can be attached, and the clock serves for it and one event more. */
  predicate EvidenceServed(cfg: Config, run: WorkRun, artifacts: seq<Artifact>, times: seq<Reading>)
    requires run.events != []
  {
    && IsIdentifier(Strip(cfg.actorId))
    && Attachable(cfg.rules, run, artifacts)
    && Ticks(run, times, |artifacts| + 1)
  }

  /** A plain transition succeeds exactly when it is allowed, the orchestrator may act and the clock serves. */
  lemma TransitionGoesOn(cfg: Config, run: WorkRun, target: State, times: seq<Reading>)
    requires Sound(cfg, run) && Allowed(run.state, target) && (target.Completed? ==> run.draftPrUrl.Some?)
    ensures
      var result := TimedTransition(cfg, run, target, times, []);
      && (result.Ok? <==> IsIdentifier(Strip(cfg.actorId)) && TickAt(run, times, 0))
      && (result.Ok? ==> result.value.state == target)
  {
    hide Accepted, Invariant, IsIdentifier, CorrelationOk, EventsProducible, ArtifactsOk, TransitionTo, Allowed, Extends;
    if times != [] {
      TransitionEffect(cfg.rules, run, target, cfg.actorId, times[0], []);
    }
  }

  lemma FewerTicks(run: WorkRun, times: seq<Reading>, n: nat)
    requires run.events != [] && Ticks(run, times, n + 1)
    ensures Ticks(run, times, n)
  {
    hide TickAt;
  }

  /** A concluded stage reaches its target exactly when there is evidence, all of it fits, and nothing else failed. */
  lemma ConcludeGoesOn(
    cfg: Config, run: WorkRun, stage: string, evidence: Result<seq<Artifact>, Fault>, times: seq<Reading>,
    target: State, failureCode: Option<string>)
    requires Sound(cfg, run) && Allowed(run.state, target) && !Terminal(target) && !Terminal(run.state)
    requires evidence.Ok? ==> ArtifactsOk(cfg.rules, evidence.value)
    ensures
      var result := Conclude(cfg, run, stage, evidence, times, target, failureCode);
      && (result.Ok? ==> result.value.state == target || result.value.state.Failed?)
      && (result.Ok? && result.value.state == target
          <==> evidence.Ok? && failureCode.None? && EvidenceServed(cfg, run, evidence.value, times))
  {
    hide Valid, Accepted, ArtifactsOk, AttachAll, Attachable, Ticks, TickAt, IsIdentifier, Allowed, Conclude, Progress;
    hide EvidenceThen, WithEvidence;
    var result := Conclude(cfg, run, stage, evidence, times, target, failureCode);
    if result.Ok? {
      ConcludeProgress(cfg, run, stage, evidence, times, target, failureCode);
    }
    if evidence.Ok? {
      AttachAllSucceeds(cfg, run, evidence.value, times);
      if Ticks(run, times, |evidence.value| + 1) {
        FewerTicks(run, times, |evidence.value|);
      }
    }
    ConcludeCases(cfg, run, stage, evidence, times, target, failureCode);
  }

  lemma ConcludeCases(
    cfg: Config, run: WorkRun, stage: string, evidence: Result<seq<Artifact>, Fault>, times: seq<Reading>,
    target: State, failureCode: Option<string>)
    requires Sound(cfg, run) && Allowed(run.state, target) && !Terminal(target) && !Terminal(run.state)
    requires evidence.Ok? ==> ArtifactsOk(cfg.rules, evidence.value)
    ensures
      var result := Conclude(cfg, run, stage, evidence, times, target, failureCode);
      && (result.Ok? && result.value.state == target
          <==> && evidence.Ok? && failureCode.None?
               && var (attached, rest) := AttachAll(cfg, run, evidence.value, times);
                  attached.Ok? && IsIdentifier(Strip(cfg.actorId)) && TickAt(attached.value, rest, 0))
  {
    hide Valid, Accepted, ArtifactsOk, AttachAll, Attachable, Ticks, TickAt, IsIdentifier, Allowed, TimedTransition;
    var result := Conclude(cfg, run, stage, evidence, times, target, failureCode);
    if evidence.Ok? {
      AttachAllSucceeds(cfg, run, evidence.value, times);
      var (attached, rest) := AttachAll(cfg, run, evidence.value, times);
      if attached.Ok? {
        TransitionGoesOn(cfg, attached.value, target, rest);
        if failureCode.Some? && result.Ok? {
          FailIsFailure(cfg, attached.value, stage, failureCode.value, rest);
        }
      } else if result.Ok? {
        FailIsFailure(cfg, run, stage, "operation_failed", rest);
      }
    } else if result.Ok? {
      FailIsFailure(cfg, run, stage, "operation_failed", times);
    }
  }

  lemma FailIsFailure(cfg: Config, run: WorkRun, stage: string, code: string, times: seq<Reading>)
    requires run.events != [] && FailFrom(cfg, run, stage, code, times).Ok?
    ensures FailFrom(cfg, run, stage, code, times).value.state.Failed?
  {
    hide Invariant, MakeEvent;
  }

  // ---------------------------------------------------------------- the stages

  /** What executed files leave as evidence. */
  function FileArtifacts(run: WorkRun, files: seq<ExecutedFile>): seq<Artifact> {
    seq(|files|, k requires 0 <= k < |files| => FileArtifact(run.runId + ":execution:1", files[k]))
  }

  predicate FilesOk(rules: Rules, run: WorkRun, files: seq<ExecutedFile>) {
    forall k | 0 <= k < |files| :: ArtifactOk(rules, FileArtifact(run.runId + ":execution:1", files[k]))
  }

  /** The specification can be handed over, the policy allows it, and it was carried out with fit evidence. */
  predicate ExecutionServed(cfg: Config, item: WorkItem, run: WorkRun, r: Response)
    requires run.events != []
  {
    && RequestOk(cfg.hash, RequestFor(cfg, run, item))
    && r.policy.Some? && r.policy.value.allowed
    && r.execution.Some? && r.execution.value.outcome.OutcomeCompleted?
    && FilesOk(cfg.rules, run, r.execution.value.files)
    && EvidenceServed(cfg, run, FileArtifacts(run, r.execution.value.files), r.times)
  }

  predicate PublicationServed(cfg: Config, run: WorkRun, r: Response)
    requires run.events != []
  {
    && r.publication.Some?
    && IsIdentifier(Strip(cfg.actorId))
    && Ticks(run, r.times, 2)
    && run.draftPrUrl.None?
    && var url := Strip(r.publication.value);
       && cfg.rules.pullUrl(url, run.correlation.repositoryUrl)
       && !cfg.rules.sensitive("draft_pr_url") && SafeValue(cfg.rules, url)
  }

  /** Everything that the pass from `run` needs to go on. */
  predicate PassServed(cfg: Config, item: WorkItem, run: WorkRun, r: Response)
    requires run.events != []
  {
    match run.state
    case Approved => EvidenceServed(cfg, run, [], r.times)
    case Executing => ExecutionServed(cfg, item, run, r)
    case Verifying =>
      && r.verification.Some?
      && (r.verification.value.passed || RemediationCount(run) < cfg.maxCycles)
      && EvidenceServed(cfg, run, r.verification.value.artifacts, r.times)
    case Remediating => r.remediation.Some? && EvidenceServed(cfg, run, r.remediation.value, r.times)
    case PublishingDraftPr => PublicationServed(cfg, run, r)
    case _ => false
  }

  /** Where a pass that goes on leads. */
  function Goal(run: WorkRun, r: Response): State {
    match run.state
    case Approved => Executing
    case Executing => Verifying
    case Verifying => if r.verification.Some? && r.verification.value.passed then PublishingDraftPr else Remediating
    case Remediating => Verifying
    case _ => Completed
  }

  lemma ExecuteGoesOn(cfg: Config, item: WorkItem, run: WorkRun, r: Response)
    requires Sound(cfg, run) && run.state.Executing?
    ensures
      var result := Execute(cfg, item, run, r);
      && (result.Ok? && !result.value.state.Failed? && !result.value.state.Blocked? <==> ExecutionServed(cfg, item, run, r))
      && (ExecutionServed(cfg, item, run, r) ==> result.value.state.Verifying?)
  {
    hide Valid, Accepted, Conclude, EvidenceServed, RequestOk, ToArtifacts, ContentOf, TimedTransition, ArtifactOk;
    hide FileArtifact, ArtifactsOk;
    if RequestOk(cfg.hash, RequestFor(cfg, run, item)) && r.policy.Some? {
      if !r.policy.value.allowed {
        var details := [("failure_code", "policy_denied"), ("summary", r.policy.value.reason)];
        DenialBlocks(cfg, run, r.times, details);
      } else if r.execution.None? {
        ConcludeGoesOn(cfg, run, "execution", Err(PortFault), r.times, Verifying, None);
      } else {
        var execution, id := r.execution.value, run.runId + ":execution:1";
        ArtifactsAreFiles(cfg.rules, id, execution.files);
        var evidence := ToArtifacts(cfg.rules, id, execution.files);
        if evidence.Ok? {
          assert evidence.value == FileArtifacts(run, execution.files);
          ToArtifactsOk(cfg.rules, id, execution.files);
        }
        var code :=
          if execution.outcome.OutcomeCompleted? then None else Some("execution_" + OutcomeText(execution.outcome));
        ConcludeGoesOn(cfg, run, "execution", evidence, r.times, Verifying, code);
      }
    }
  }

  lemma DenialBlocks(cfg: Config, run: WorkRun, times: seq<Reading>, details: Details)
    requires Sound(cfg, run)
    ensures
      var result := TimedTransition(cfg, run, Blocked, times, details);
      result.Ok? ==> result.value.state.Blocked?
  {
    hide Valid, Accepted, Progress, TimedTransition;
    if TimedTransition(cfg, run, Blocked, times, details).Ok? {
      TransitionProgress(cfg, run, Blocked, times, details);
    }
  }

  lemma VerifyGoesOn(cfg: Config, run: WorkRun, r: Response)
    requires Sound(cfg, run) && run.state.Verifying? && ResponseOk(cfg.rules, r)
    ensures
      var result := Verify(cfg, run, r);
      && (result.Ok? && !result.value.state.Failed? && !result.value.state.Blocked?
          <==> && r.verification.Some?
               && (r.verification.value.passed || RemediationCount(run) < cfg.maxCycles)
               && EvidenceServed(cfg, run, r.verification.value.artifacts, r.times))
      && (result.Ok? && !result.value.state.Failed? ==> result.value.state == Goal(run, r))
  {
    hide Valid, Accepted, Conclude, EvidenceServed, RemediationCount, ArtifactsOk;
    match r.verification
    case None => ConcludeGoesOn(cfg, run, "verification", Err(PortFault), r.times, Remediating, None);
    case Some(verdict) =>
      var overLimit := 1 + RemediationCount(run) > cfg.maxCycles;
      ConcludeGoesOn(
        cfg, run, "verification", Ok(verdict.artifacts), r.times,
        if verdict.passed then PublishingDraftPr else Remediating,
        if !verdict.passed && overLimit then Some("remediation_limit_reached") else None);
  }

  lemma RemediateGoesOn(cfg: Config, run: WorkRun, r: Response)
    requires Sound(cfg, run) && run.state.Remediating? && ResponseOk(cfg.rules, r)
    ensures
      var result := Remediate(cfg, run, r);
      && (result.Ok? && !result.value.state.Failed? && !result.value.state.Blocked?
          <==> r.remediation.Some? && EvidenceServed(cfg, run, r.remediation.value, r.times))
      && (result.Ok? && !result.value.state.Failed? ==> result.value.state.Verifying?)
  {
    hide Valid, Accepted, Conclude, EvidenceServed, ArtifactsOk;
    var evidence := match r.remediation case None => Err(PortFault) case Some(artifacts) => Ok(artifacts);
    ConcludeGoesOn(cfg, run, "remediation", evidence, r.times, Verifying, None);
  }

  lemma UrlEvent(rules: Rules, sequence: int, state: State, actor: string, at: Reading, url: string)
    requires sequence >= 1
    ensures
      var event := MakeEvent(rules, sequence, DraftPrRecorded, state, actor, at, [("draft_pr_url", Strip(url))]);
      && (event.Ok? <==>
            && !rules.sensitive("draft_pr_url") && SafeValue(rules, Strip(url))
            && at.Aware? && IsIdentifier(Strip(actor)))
      && (event.Ok? ==> event.value.at == at.instant)
  {
    hide IsIdentifier, SafeValue, Strip;
    KeysAreIdentifiers();
    LiteralIsTrimmed("draft_pr_url");
    assert |"draft_pr_url"| == 12;
    StripStable(url);
    var details := [("draft_pr_url", Strip(url))];
    assert DetailOk(rules, details[0]) <==> !rules.sensitive("draft_pr_url") && SafeValue(rules, Strip(url));
    assert DistinctKeys(details);
  }

  lemma RecordGoesOn(cfg: Config, run: WorkRun, url: string, times: seq<Reading>)
    requires Sound(cfg, run) && run.state.PublishingDraftPr?
    ensures
      var result := TimedRecord(cfg, run, url, times);
      && (result.Ok? <==>
            && run.draftPrUrl.None? && cfg.rules.pullUrl(Strip(url), run.correlation.repositoryUrl)
            && !cfg.rules.sensitive("draft_pr_url") && SafeValue(cfg.rules, Strip(url))
            && TickAt(run, times, 0) && IsIdentifier(Strip(cfg.actorId)))
      && (result.Ok? ==>
            var next := result.value;
            && Sound(cfg, next) && next.state == run.state && next.draftPrUrl.Some?
            && next.events[|next.events| - 1].at == times[0].instant)
  {
    hide Accepted, Invariant, CorrelationOk, EventsProducible, ArtifactsOk, IsIdentifier, RecordDraftPr, Extends, SafeValue;
    hide Strip, DetailOk, MakeEvent;
    UrlEvent(cfg.rules, |run.events| + 1, run.state, cfg.actorId, if times == [] then Naive else times[0], url);
    if times != [] {
      RecordEffect(cfg.rules, run, url, cfg.actorId, times[0]);
      if TimedRecord(cfg, run, url, times).Ok? {
        RecordKeeps(cfg.rules, run, url, cfg.actorId, times[0]);
      }
    }
  }

  lemma PublishGoesOn(cfg: Config, run: WorkRun, r: Response)
    requires Sound(cfg, run) && run.state.PublishingDraftPr?
    ensures
      var result := Publish(cfg, run, r);
      && (result.Ok? && !result.value.state.Failed? && !result.value.state.Blocked? <==> PublicationServed(cfg, run, r))
      && (result.Ok? && !result.value.state.Failed? ==> result.value.state.Completed?)
  {
    hide Valid, Accepted, TimedRecord, TimedTransition, FailFrom, TickAt, SafeValue, IsIdentifier, Strip;
    var failure := "operation_failed";
    if r.publication.None? {
      if Publish(cfg, run, r).Ok? {
        FailIsFailure(cfg, run, "draft_pr_publication", failure, r.times);
      }
    } else {
      var recorded := TimedRecord(cfg, run, r.publication.value, r.times);
      RecordGoesOn(cfg, run, r.publication.value, r.times);
      if recorded.Ok? {
        FirstTick(run, r.times);
        TransitionGoesOn(cfg, recorded.value, Completed, Rest(r.times));
        SecondTick(run, recorded.value, r.times);
      } else {
        if Ticks(run, r.times, 2) {
          assert TickAt(run, r.times, 0);
        }
        if Publish(cfg, run, r).Ok? {
          FailIsFailure(cfg, run, "draft_pr_publication", failure, Rest(r.times));
        }
      }
    }
  }

  lemma SecondTick(run: WorkRun, next: WorkRun, times: seq<Reading>)
    requires run.events != [] && next.events != [] && TickAt(run, times, 0)
    requires times != [] && times[0].Aware? && next.events[|next.events| - 1].at == times[0].instant
    ensures Ticks(run, times, 2) <==> TickAt(next, times[1..], 0)
  {
    hide TickAt;
    TicksNext(run, next, times, 1);
    assert Ticks(next, times[1..], 1) ==> TickAt(next, times[1..], 0);
    if TickAt(next, times[1..], 0) {
      forall i | 0 <= i < 1
        ensures TickAt(next, times[1..], i)
      {
        assert i == 0;
      }
    }
  }

  /**
   A pass takes an unfinished run on exactly when everything it needs is there; it then leads
   where the state and the verdict say. Otherwise the run fails, is blocked, or stays as it is.
   */
  lemma PassGoesOn(cfg: Config, item: WorkItem, run: WorkRun, r: Response)
    requires Sound(cfg, run) && ResponseOk(cfg.rules, r)
    ensures
      var result := Advance(cfg, item, run, r);
      && (result.Ok? && !result.value.state.Failed? && !result.value.state.Blocked? <==> PassServed(cfg, item, run, r))
      && (PassServed(cfg, item, run, r) ==> result.value.state == Goal(run, r))
  {
    hide Valid, Accepted, Execute, Verify, Remediate, Publish, RemediationCount, TimedTransition, Attachable, ResponseOk;
    hide ExecutionServed, PublicationServed, IsIdentifier, TickAt;
    match run.state
    case Approved =>
      TransitionGoesOn(cfg, run, Executing, r.times);
      NoneAttached(cfg.rules, run, r.times);
    case Executing => ExecuteGoesOn(cfg, item, run, r);
    case Verifying => VerifyGoesOn(cfg, run, r);
    case Remediating => RemediateGoesOn(cfg, run, r);
    case PublishingDraftPr => PublishGoesOn(cfg, run, r);
    case _ =>
  }

  // ---------------------------------------------------------------- the whole loop

  /** The run at hand after `i` saves. */
  function Reached(run: WorkRun, saves: seq<WorkRun>, i: nat): WorkRun
    requires i <= |saves|
  {
    if i == 0 then run else saves[i - 1]
  }

  /** The pass after `i` saves finds the run over, or everything it needs. */
  ghost predicate ServedAt(
    cfg: Config, item: WorkItem, run: WorkRun, saves: seq<WorkRun>, pass: nat, respond: nat -> Response, i: nat)
    requires i <= |saves|
  {
    var at := Reached(run, saves, i);
    at.events != [] && (at.state.Completed? || PassServed(cfg, item, at, respond(pass + i)))
  }

  ghost predicate AllServed(
    cfg: Config, item: WorkItem, run: WorkRun, saves: seq<WorkRun>, pass: nat, respond: nat -> Response)
  {
    forall i: nat | i <= |saves| :: ServedAt(cfg, item, run, saves, pass, respond, i)
  }

  lemma AllServedGrows(
    cfg: Config, item: WorkItem, run: WorkRun, next: WorkRun, rest: seq<WorkRun>, pass: nat, respond: nat -> Response)
    ensures
      AllServed(cfg, item, run, [next] + rest, pass, respond)
      <==> && run.events != [] && (run.state.Completed? || PassServed(cfg, item, run, respond(pass)))
           && AllServed(cfg, item, next, rest, pass + 1, respond)
  {
    hide PassServed;
    var saves, later := [next] + rest, pass + 1;
    forall i: nat | i <= |rest|
      ensures
        ServedAt(cfg, item, run, saves, pass, respond, i + 1) <==> ServedAt(cfg, item, next, rest, later, respond, i)
    {
      assert Reached(run, saves, i + 1) == Reached(next, rest, i);
      assert pass + (i + 1) == pass + 1 + i;
    }
    if AllServed(cfg, item, run, saves, pass, respond) {
      assert ServedAt(cfg, item, run, saves, pass, respond, 0);
      forall i: nat | i <= |rest|
        ensures ServedAt(cfg, item, next, rest, later, respond, i)
      {
        assert ServedAt(cfg, item, run, saves, pass, respond, i + 1);
      }
    }
    if run.events != [] && (run.state.Completed? || PassServed(cfg, item, run, respond(pass))) {
      assert ServedAt(cfg, item, run, saves, pass, respond, 0);
      if AllServed(cfg, item, next, rest, pass + 1, respond) {
        forall i: nat | i <= |saves|
          ensures ServedAt(cfg, item, run, saves, pass, respond, i)
        {
          if i > 0 {
            assert ServedAt(cfg, item, next, rest, later, respond, i - 1);
          }
        }
      }
    }
  }

  lemma ServedAlone(cfg: Config, item: WorkItem, run: WorkRun, pass: nat, respond: nat -> Response)
    requires run.events != []
    ensures
      AllServed(cfg, item, run, [], pass, respond)
      <==> run.state.Completed? || PassServed(cfg, item, run, respond(pass))
  {
    hide PassServed;
    if run.state.Completed? || PassServed(cfg, item, run, respond(pass)) {
      assert forall i: nat | i <= 0 :: ServedAt(cfg, item, run, [], pass, respond, i);
    }
    if AllServed(cfg, item, run, [], pass, respond) {
      assert ServedAt(cfg, item, run, [], pass, respond, 0);
    }
  }

  /**
   The loop completes a run exactly when every pass on the way finds what it needs. It then
   saves the run once for each pass, the last time completed.
   */
  lemma {:induction false} CompletesExactly(
    cfg: Config, item: WorkItem, run: WorkRun, pass: nat, respond: nat -> Response)
    requires Sound(cfg, run) && AnswersOk(cfg.rules, respond) && DistinctDetails(run.events)
    ensures
      var journey := Continue(cfg, item, run, pass, respond, true);
      && (journey.end.Ok? && journey.end.value.state.Completed?
          <==> AllServed(cfg, item, run, journey.saves, pass, respond))
      && (journey.end.Ok? ==>
            && journey.end.value == Reached(run, journey.saves, |journey.saves|)
            && Sound(cfg, journey.end.value))
    decreases SavesLeft(cfg, run)
  {
    hide Valid, Accepted, Advance, ResponseOk, SavesLeft, Continue, DistinctDetails, PassServed, AllServed, KeepsReadable;
    ContinueUnfolds(cfg, item, run, pass, respond, true);
    assert ResponseOk(cfg.rules, respond(pass));
    ServedAlone(cfg, item, run, pass, respond);
    FinishedIsUnserved(cfg, item, run, respond(pass));
    if !Terminal(run.state) {
      PassGoesOn(cfg, item, run, respond(pass));
      if Advance(cfg, item, run, respond(pass)).Ok? {
        var next := Advance(cfg, item, run, respond(pass)).value;
        PassSpends(cfg, item, run, respond(pass));
        AdvanceReadable(cfg, item, run, respond(pass));
        StaysReadable(run, next);
        CompletesExactly(cfg, item, next, pass + 1, respond);
        var rest := Continue(cfg, item, next, pass + 1, respond, true);
        AllServedGrows(cfg, item, run, next, rest.saves, pass, respond);
        LastReached(run, next, rest.saves);
        if next.state.Failed? || next.state.Blocked? {
          ContinueUnfolds(cfg, item, next, pass + 1, respond, true);
          ServedAlone(cfg, item, next, pass + 1, respond);
          FinishedIsUnserved(cfg, item, next, respond(pass + 1));
        }
      }
    }
  }

  lemma LastReached(run: WorkRun, next: WorkRun, rest: seq<WorkRun>)
    ensures Reached(run, [next] + rest, |rest| + 1) == Reached(next, rest, |rest|)
  {
  }

  lemma FinishedIsUnserved(cfg: Config, item: WorkItem, run: WorkRun, r: Response)
    requires run.events != []
    ensures Terminal(run.state) ==> !PassServed(cfg, item, run, r)
  {
    hide ExecutionServed, EvidenceServed, PublicationServed;
  }

  lemma StaysReadable(run: WorkRun, next: WorkRun)
    requires KeepsReadable(run, next) && DistinctDetails(run.events)
    ensures DistinctDetails(next.events)
  {
  }

  // ---------------------------------------------------------------- one invocation

  /** The run is just approved, and the item at hand is the one that was approved. */
  predicate Approves(approved: WorkRun, item: WorkItem) {
    && approved.state == Approved && |approved.events| == 1 && approved.artifacts == [] && approved.draftPrUrl == None
    && item.revision == approved.correlation.revision
    && item.contentSha256 == approved.correlation.contentSha256
  }

  /** The checkpoint is of the run that was approved, and passes the validation of checkpoints. */
  ghost predicate Resumes(checkpoint: WorkRun, approved: WorkRun) {
    && checkpoint.events != [] && approved.events != [] && Accepted(checkpoint)
    && checkpoint.runId == approved.runId
    && checkpoint.correlation == approved.correlation
    && checkpoint.events[0] == approved.events[0]
  }

  /** An invocation with a ready item whose loop may start, from a checkpoint or from the approved run. */
  ghost predicate Startable(stored: Option<WorkRun>, approved: WorkRun, item: WorkItem) {
    && Approves(approved, item)
    && (stored.Some? ==> Resumes(stored.value, approved))
  }

  /** The one update that tells of a completed run. */
  function CompletionOf(run: WorkRun): Notice
    requires run.draftPrUrl.Some?
  {
    Completion(
      run.correlation.issueKey, run.runId + ":report:" + "completed",
      "GearMeshing-AI " + "completed " + "the governed " + "work run.", run.draftPrUrl.value)
  }

  lemma CompletedIsReported(rules: Rules, run: WorkRun, delivered: bool)
    requires PrintableIsPlain(rules) && Valid(rules, run) && run.state.Completed?
    ensures run.draftPrUrl.Some?
    ensures
      var fits := |run.correlation.issueKey| <= 256 && |run.runId| <= 239 && rules.reportUrl(run.draftPrUrl.value);
      && NoticesOf(rules, run) == (if fits then [CompletionOf(run)] else [])
      && ReportEnd(rules, run, delivered)
         == if !fits then Err(ValidationFault) else if delivered then Ok(run) else Err(PortFault)
  {
    hide PrintableIsPlain, EventsProducible, CorrelationOk, ArtifactsOk, HistoryOk, NoticeOf;
    CompletionIsReported(rules, run);
    assert StateText(Completed) == "completed" && |StateText(Completed)| == 9;
  }

  /** What the passes of an invocation saved: all its saves, but for that of a run taken in. */
  function PassSaves(stored: Option<WorkRun>, saves: seq<WorkRun>): seq<WorkRun> {
    if stored.None? && saves != [] then saves[1..] else saves
  }

  lemma InvocationStarts(cfg: Config, stored: Option<WorkRun>, inputs: Inputs)
    requires InputsOk(cfg, inputs) && inputs.item.Some? && inputs.readiness == Some(Ready)
    requires stored.Some? ==> Sound(cfg, stored.value)
    ensures
      var invocation := Invoke(cfg, Ok(stored), inputs);
      var item := inputs.item.value;
      var start := if stored.Some? then stored.value else inputs.approved;
      if !Startable(stored, inputs.approved, item) then invocation == Raise(IntegrityFault)
      else
        && Sound(cfg, start) && (stored.None? ==> DistinctDetails(start.events))
        && if Terminal(start.state) then invocation == Invocation([], [], Ok(start))
           else
             var journey := Continue(cfg, item, start, 0, inputs.respond, true);
             invocation == Reported(
               cfg.rules, Journey((if stored.Some? then [] else [start]) + journey.saves, journey.end), inputs.delivered)
  {
    hide Valid, Accepted, Clean, Continue, AnswersOk, Reported, DistinctDetails, CanonicalNames, Built;
    ValidationIsComplete(cfg.rules, inputs.approved);
    if Pristine(inputs.approved) {
      PristineIsReadable(inputs.approved);
      if stored.Some? {
        var checkpoint := stored.value;
        assert checkpoint.events[..1] == [checkpoint.events[0]] && inputs.approved.events == [inputs.approved.events[0]];
        assert [] + Continue(cfg, inputs.item.value, checkpoint, 0, inputs.respond, true).saves
            == Continue(cfg, inputs.item.value, checkpoint, 0, inputs.respond, true).saves;
      }
    }
  }

  predicate Reportable(rules: Rules, run: WorkRun) {
    && |run.correlation.issueKey| <= 256 && |run.runId| <= 239
    && run.draftPrUrl.Some? && rules.reportUrl(run.draftPrUrl.value)
  }

  lemma ReportedCompletes(rules: Rules, journey: Journey, delivered: bool)
    requires PrintableIsPlain(rules) && (journey.end.Ok? ==> Valid(rules, journey.end.value))
    ensures
      var invocation := Reported(rules, journey, delivered);
      && invocation.saves == journey.saves
      && (invocation.end.Ok? && invocation.end.value.state.Completed?
          <==> && journey.end.Ok? && journey.end.value.state.Completed?
               && Reportable(rules, journey.end.value) && delivered)
      && (invocation.end.Ok? && invocation.end.value.state.Completed? ==>
            && invocation.end == journey.end && invocation.notices == [CompletionOf(journey.end.value)])
  {
    hide PrintableIsPlain, Valid, NoticeOf, CompletionOf, NoticesOf;
    if journey.end.Ok? && journey.end.value.state.Completed? {
      CompletedIsReported(rules, journey.end.value, delivered);
    }
  }

  /**
   What a finished invocation tells: it gives back a completed run exactly when the item and the
   checkpoint are those of the approved run and either the checkpoint is completed already, or
   every pass found what it needed and the report fits and was delivered. It has then sent the one
   completion notice, with the key and the Draft PR of the run.
   */
  ghost predicate Tells(cfg: Config, stored: Option<WorkRun>, inputs: Inputs, item: WorkItem, invocation: Invocation) {
    var start := if stored.Some? then stored.value else inputs.approved;
    var saves := PassSaves(stored, invocation.saves);
    var last := Reached(start, saves, |saves|);
    && (invocation.end.Ok? && invocation.end.value.state.Completed?
        <==> && Startable(stored, inputs.approved, item)
             && AllServed(cfg, item, start, saves, 0, inputs.respond)
             && (start.state.Completed? || (Reportable(cfg.rules, last) && inputs.delivered)))
    && (invocation.end.Ok? && invocation.end.value.state.Completed? ==>
          && invocation.end.value == last
          && if start.state.Completed? then invocation.notices == []
             else last.draftPrUrl.Some? && invocation.notices == [CompletionOf(last)])
  }

  /** The completion notice is sent by the invocation that completes the run, and exactly when it does. */
  lemma InvocationCompletes(cfg: Config, stored: Option<WorkRun>, inputs: Inputs)
    requires InputsOk(cfg, inputs) && PrintableIsPlain(cfg.rules)
    requires inputs.item.Some? && inputs.readiness == Some(Ready)
    requires stored.Some? ==> Sound(cfg, stored.value) && DistinctDetails(stored.value.events)
    ensures Tells(cfg, stored, inputs, inputs.item.value, Invoke(cfg, Ok(stored), inputs))
  {
    hide Valid, Accepted, Continue, AnswersOk, DistinctDetails, Invoke, AllServed, Startable, Reported, Tells;
    hide PrintableIsPlain, InputsOk;
    InvocationStarts(cfg, stored, inputs);
    var item, start := inputs.item.value, if stored.Some? then stored.value else inputs.approved;
    if !Startable(stored, inputs.approved, item) {
      RaisingTells(cfg, stored, inputs, item);
    } else if Terminal(start.state) {
      FinishedTells(cfg, stored, inputs, item);
    } else {
      AnswersAreOk(cfg, inputs);
      LoopTells(cfg, stored, inputs, item, start);
    }
  }

  lemma RaisingTells(cfg: Config, stored: Option<WorkRun>, inputs: Inputs, item: WorkItem)
    requires !Startable(stored, inputs.approved, item)
    ensures Tells(cfg, stored, inputs, item, Raise(IntegrityFault))
  {
    hide Startable, AllServed;
  }

  /** A finished run is given back as it is; the approved run is not finished. */
  lemma FinishedTells(cfg: Config, stored: Option<WorkRun>, inputs: Inputs, item: WorkItem)
    requires Startable(stored, inputs.approved, item)
    requires
      var start := if stored.Some? then stored.value else inputs.approved;
      start.events != [] && Terminal(start.state)
    ensures
      Tells(
        cfg, stored, inputs, item, Invocation([], [], Ok(if stored.Some? then stored.value else inputs.approved)))
  {
    hide Accepted, PassServed;
    var start := if stored.Some? then stored.value else inputs.approved;
    ServedAlone(cfg, item, start, 0, inputs.respond);
    FinishedIsUnserved(cfg, item, start, inputs.respond(0));
  }

  lemma LoopTells(cfg: Config, stored: Option<WorkRun>, inputs: Inputs, item: WorkItem, start: WorkRun)
    requires PrintableIsPlain(cfg.rules) && AnswersOk(cfg.rules, inputs.respond) && Sound(cfg, start)
    requires DistinctDetails(start.events) && !Terminal(start.state)
    requires start == if stored.Some? then stored.value else inputs.approved
    requires Startable(stored, inputs.approved, item)
    ensures
      var journey := Continue(cfg, item, start, 0, inputs.respond, true);
      var saves := (if stored.Some? then [] else [start]) + journey.saves;
      Tells(
        cfg, stored, inputs, item, Reported(cfg.rules, Journey(saves, journey.end), inputs.delivered))
  {
    hide Valid, Accepted, Continue, AnswersOk, DistinctDetails, AllServed, Startable, Reported, PrintableIsPlain, Reportable;
    var journey := Continue(cfg, item, start, 0, inputs.respond, true);
    var saves := (if stored.Some? then [] else [start]) + journey.saves;
    CompletesExactly(cfg, item, start, 0, inputs.respond);
    ReportedCompletes(cfg.rules, Journey(saves, journey.end), inputs.delivered);
    assert PassSaves(stored, saves) == journey.saves;
  }

  lemma AnswersAreOk(cfg: Config, inputs: Inputs)
    requires InputsOk(cfg, inputs)
    ensures AnswersOk(cfg.rules, inputs.respond)
  {
  }

  // ---------------------------------------------------------------- an item that is not ready

  /** The one event that says why the run is blocked. */
  function UnreadyEvent(cfg: Config, summary: string, at: int): Event {
    Event(
      2, Entered(Blocked), Blocked, Strip(cfg.actorId), at,
      [("failure_code", "work_item_not_ready"), ("summary", Strip(summary))])
  }

  /** The summary and the clock allow the run to be blocked. */
  predicate Blockable(cfg: Config, approved: WorkRun, summary: string, times: seq<Reading>)
    requires approved.events != []
  {
    && IsIdentifier(Strip(cfg.actorId)) && TickAt(approved, times, 0)
    && !cfg.rules.sensitive("failure_code") && SafeValue(cfg.rules, "work_item_not_ready")
    && !cfg.rules.sensitive("summary") && SafeValue(cfg.rules, Strip(summary))
  }

  lemma ReasonIsOk(rules: Rules, summary: string)
    ensures
      var details := [("failure_code", "work_item_not_ready"), ("summary", summary)];
      && DistinctKeys(details)
      && TrimDetails(details) == [("failure_code", "work_item_not_ready"), ("summary", Strip(summary))]
      && ((forall i | 0 <= i < |details| :: DetailOk(rules, details[i]))
          <==> && !rules.sensitive("failure_code") && SafeValue(rules, "work_item_not_ready")
               && !rules.sensitive("summary") && SafeValue(rules, Strip(summary)))
  {
    hide Strip, SafeValue;
    LiteralIsTrimmed("failure_code");
    LiteralIsTrimmed("work_item_not_ready");
    LiteralIsTrimmed("summary");
    ReasonKeysAreIdentifiers();
    var details := [("failure_code", "work_item_not_ready"), ("summary", summary)];
    assert |"failure_code"| == 12 && |"summary"| == 7;
    assert DetailOk(rules, details[0]) <==>
           !rules.sensitive("failure_code") && SafeValue(rules, "work_item_not_ready");
    assert DetailOk(rules, details[1]) <==> !rules.sensitive("summary") && SafeValue(rules, Strip(summary));
  }

  lemma ReasonKeysAreIdentifiers()
    ensures IsIdentifier("failure_code") && IsIdentifier("summary")
  {
    var code := "failure_code";
    assert |code| == 12;
  }

  lemma UnreadyIsBlocked(cfg: Config, approved: WorkRun, summary: string, times: seq<Reading>)
    requires Sound(cfg, approved) && approved.state.Approved? && |approved.events| == 1
    ensures
      var blocked := BlockUnready(cfg, approved, summary, times);
      && (blocked.Ok? <==> Blockable(cfg, approved, summary, times))
      && (blocked.Ok? ==>
            blocked.value
            == approved.(state := Blocked, events := approved.events + [UnreadyEvent(cfg, summary, times[0].instant)]))
  {
    hide Accepted, Invariant, CorrelationOk, EventsProducible, ArtifactsOk, IsIdentifier, DetailOk, SafeValue, Strip;
    hide TransitionTo, Extends, DistinctKeys, TrimDetails;
    ReasonIsOk(cfg.rules, summary);
    var details := [("failure_code", "work_item_not_ready"), ("summary", summary)];
    if times != [] {
      TransitionEffect(cfg.rules, approved, Blocked, cfg.actorId, times[0], details);
    }
  }

  /**
   An invocation with an item that is not ready gives back the checkpoint if there is one, and
   otherwise saves the approved run blocked with the reason, if the reason and the clock allow it.
   */
  lemma UnreadyInvocation(cfg: Config, stored: Option<WorkRun>, inputs: Inputs, summary: string)
    requires InputsOk(cfg, inputs) && inputs.item.Some? && inputs.readiness == Some(Unready(summary))
    requires stored.Some? ==> Sound(cfg, stored.value)
    ensures
      var invocation, approved := Invoke(cfg, Ok(stored), inputs), inputs.approved;
      if !Approves(approved, inputs.item.value) then invocation == Raise(IntegrityFault)
      else if stored.Some? then invocation == Invocation([], [], Ok(stored.value))
      else if !Blockable(cfg, approved, summary, inputs.times) then
        invocation.saves == [] && invocation.notices == [] && invocation.end.Err?
      else
        invocation.saves == [approved.(
          state := Blocked, events := approved.events + [UnreadyEvent(cfg, summary, inputs.times[0].instant)])]
  {
    hide Valid, Accepted, Clean, AnswersOk, Built, NoticesOf, ReportEnd, Blockable, BlockUnready, Continue;
    ValidationIsComplete(cfg.rules, inputs.approved);
    if Approves(inputs.approved, inputs.item.value) && stored.None? {
      UnreadyIsBlocked(cfg, inputs.approved, summary, inputs.times);
    }
  }
}
