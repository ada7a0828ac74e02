/**
 What the orchestrator writes, the store reads back: no step of the runner or of the commands
 adds an event that repeats a detail key, so the abstract register of `RunHistories` and the
 files of the checkpoint store agree.
 */
module ReadableRuns {
  import opened Wrappers
  import opened Text
  import opened WorkRuns
  import opened CheckpointValidation
  import opened WorkItems
  import opened WorkflowStages
  import opened RunHistories
  import opened CheckpointStore

  /** The events of `next` are as readable as those of `run`. */
  predicate KeepsReadable(run: WorkRun, next: WorkRun) {
    && (DistinctDetails(next.events) <==> DistinctDetails(run.events))
    && (CanonicalNames(run.events) ==> CanonicalNames(next.events))
  }

  lemma AppendReadable(rules: Rules, run: WorkRun, e: Event, next: WorkRun)
    requires next.events == run.events + [e] && DistinctKeys(e.details) && CanonicalName(e.name)
    ensures KeepsReadable(run, next)
  {
    hide DistinctDetails, CanonicalNames, DistinctKeys, CanonicalName;
    FrontAndLast(rules, run.events, e);
  }

  lemma MadeDetails(
    rules: Rules, sequence: int, name: EventName, state: State, actor: string, at: Reading, details: Details)
    requires MakeEvent(rules, sequence, name, state, actor, at, details).Ok?
    ensures
      var e := MakeEvent(rules, sequence, name, state, actor, at, details).value;
      e.name == name && e.details == TrimDetails(details)
  {
  }

  lemma TransitionReadable(rules: Rules, run: WorkRun, target: State, actor: string, at: Reading, details: Details)
    requires DistinctKeys(TrimDetails(details)) && TransitionTo(rules, run, target, actor, at, details).Ok?
    ensures KeepsReadable(run, TransitionTo(rules, run, target, actor, at, details).value)
  {
    hide MakeEvent, DistinctKeys, KeepsReadable, Invariant;
    MadeDetails(rules, |run.events| + 1, Entered(target), target, actor, at, details);
    var e := MakeEvent(rules, |run.events| + 1, Entered(target), target, actor, at, details).value;
    AppendReadable(rules, run, e, TransitionTo(rules, run, target, actor, at, details).value);
  }

  /** The details that the runner gives its transitions. */
  predicate RunnerDetails(details: Details) {
    || details == []
    || (|details| == 2 && details[0].0 == "failure_code" && (details[1].0 == "stage" || details[1].0 == "summary"))
  }

  lemma RunnerDetailsAreDistinct(details: Details)
    requires RunnerDetails(details)
    ensures DistinctKeys(TrimDetails(details))
  {
    LiteralIsTrimmed("failure_code");
    LiteralIsTrimmed("stage");
    LiteralIsTrimmed("summary");
    assert |"failure_code"| == 12 && |"stage"| == 5 && |"summary"| == 7;
  }

  lemma TimedReadable(cfg: Config, run: WorkRun, target: State, times: seq<Reading>, details: Details)
    requires run.events != [] && RunnerDetails(details) && TimedTransition(cfg, run, target, times, details).Ok?
    ensures KeepsReadable(run, TimedTransition(cfg, run, target, times, details).value)
  {
    hide TransitionTo, KeepsReadable;
    RunnerDetailsAreDistinct(details);
    TransitionReadable(cfg.rules, run, target, cfg.actorId, times[0], details);
  }

  lemma AttachReadable(rules: Rules, run: WorkRun, artifact: Artifact, actor: string, at: Reading)
    requires ArtifactOk(rules, artifact) && AttachArtifact(rules, run, artifact, actor, at).Ok?
    ensures KeepsReadable(run, AttachArtifact(rules, run, artifact, actor, at).value)
  {
    hide MakeEvent, DistinctKeys, KeepsReadable, Invariant, ArtifactOk, ArtifactDetails;
    ArtifactDetailsAreTrimmed(rules, artifact);
    MadeDetails(rules, |run.events| + 1, ArtifactAttached, run.state, actor, at, ArtifactDetails(artifact));
    var e := MakeEvent(rules, |run.events| + 1, ArtifactAttached, run.state, actor, at, ArtifactDetails(artifact)).value;
    AppendReadable(rules, run, e, AttachArtifact(rules, run, artifact, actor, at).value);
  }

  lemma {:induction false} AttachAllReadable(cfg: Config, run: WorkRun, artifacts: seq<Artifact>, times: seq<Reading>)
    requires run.events != [] && ArtifactsOk(cfg.rules, artifacts)
    requires AttachAll(cfg, run, artifacts, times).0.Ok?
    ensures KeepsReadable(run, AttachAll(cfg, run, artifacts, times).0.value)
    decreases |artifacts|
  {
    hide MakeEvent, Invariant, ArtifactOk, DistinctDetails, CanonicalNames;
    if artifacts != [] {
      assert artifacts[0] in artifacts;
      AttachReadable(cfg.rules, run, artifacts[0], cfg.actorId, times[0]);
      AttachAllReadable(cfg, TimedAttach(cfg, run, artifacts[0], times).value, artifacts[1..], Rest(times));
    }
  }

  lemma RecordReadable(rules: Rules, run: WorkRun, url: string, actor: string, at: Reading)
    requires RecordDraftPr(rules, run, url, actor, at).Ok?
    ensures KeepsReadable(run, RecordDraftPr(rules, run, url, actor, at).value)
  {
    hide MakeEvent, KeepsReadable, Invariant, Strip;
    var details := [("draft_pr_url", Strip(url))];
    MadeDetails(rules, |run.events| + 1, DraftPrRecorded, run.state, actor, at, details);
    var e := MakeEvent(rules, |run.events| + 1, DraftPrRecorded, run.state, actor, at, details).value;
    assert DistinctKeys(TrimDetails(details));
    AppendReadable(rules, run, e, RecordDraftPr(rules, run, url, actor, at).value);
  }

  lemma ConcludeReadable(
    cfg: Config, run: WorkRun, stage: string, evidence: Result<seq<Artifact>, Fault>, times: seq<Reading>,
    target: State, failureCode: Option<string>)
    requires run.events != [] && (evidence.Ok? ==> ArtifactsOk(cfg.rules, evidence.value))
    requires Conclude(cfg, run, stage, evidence, times, target, failureCode).Ok?
    ensures KeepsReadable(run, Conclude(cfg, run, stage, evidence, times, target, failureCode).value)
  {
    hide TimedTransition, DistinctDetails, CanonicalNames, AttachAll, ArtifactsOk;
    if evidence.Ok? && AttachAll(cfg, run, evidence.value, times).0.Ok? {
      AttachAllReadable(cfg, run, evidence.value, times);
      var (attached, rest) := AttachAll(cfg, run, evidence.value, times);
      var details := if failureCode.Some? then [("failure_code", failureCode.value), ("stage", stage)] else [];
      TimedReadable(cfg, attached.value, if failureCode.Some? then Failed else target, rest, details);
    } else {
      var rest := if evidence.Ok? then AttachAll(cfg, run, evidence.value, times).1 else times;
      TimedReadable(cfg, run, Failed, rest, [("failure_code", "operation_failed"), ("stage", stage)]);
    }
  }

  lemma ExecuteReadable(cfg: Config, item: WorkItem, run: WorkRun, r: Response)
    requires run.events != [] && Execute(cfg, item, run, r).Ok?
    ensures KeepsReadable(run, Execute(cfg, item, run, r).value)
  {
    hide KeepsReadable, Conclude, TimedTransition, RequestOk;
    var request := StageRequest(cfg, item, run).value;
    if !r.policy.value.allowed {
      TimedReadable(
        cfg, run, Blocked, r.times, [("failure_code", "policy_denied"), ("summary", r.policy.value.reason)]);
    } else if r.execution.None? {
      ConcludeReadable(cfg, run, "execution", Err(PortFault), r.times, Verifying, None);
    } else {
      var execution := r.execution.value;
      var evidence := ToArtifacts(cfg.rules, request.executionId, execution.files);
      if evidence.Ok? {
        ToArtifactsOk(cfg.rules, request.executionId, execution.files);
      }
      ConcludeReadable(
        cfg, run, "execution", evidence, r.times, Verifying,
        if execution.outcome.OutcomeCompleted? then None else Some("execution_" + OutcomeText(execution.outcome)));
    }
  }

  lemma VerifyReadable(cfg: Config, run: WorkRun, r: Response)
    requires run.events != [] && ResponseOk(cfg.rules, r) && Verify(cfg, run, r).Ok?
    ensures KeepsReadable(run, Verify(cfg, run, r).value)
  {
    hide KeepsReadable, Conclude, ArtifactsOk;
    if r.verification.None? {
      ConcludeReadable(cfg, run, "verification", Err(PortFault), r.times, Remediating, None);
    } else {
      var verdict := r.verification.value;
      var overLimit := 1 + RemediationCount(run) > cfg.maxCycles;
      ConcludeReadable(
        cfg, run, "verification", Ok(verdict.artifacts), r.times,
        if verdict.passed then PublishingDraftPr else Remediating,
        if !verdict.passed && overLimit then Some("remediation_limit_reached") else None);
    }
  }

  lemma PublishReadable(cfg: Config, run: WorkRun, r: Response)
    requires run.events != [] && Publish(cfg, run, r).Ok?
    ensures KeepsReadable(run, Publish(cfg, run, r).value)
  {
    hide DistinctDetails, CanonicalNames, TimedTransition, MakeEvent, Invariant;
    var failure := [("failure_code", "operation_failed"), ("stage", "draft_pr_publication")];
    if r.publication.None? {
      TimedReadable(cfg, run, Failed, r.times, failure);
    } else if TimedRecord(cfg, run, r.publication.value, r.times).Err? {
      TimedReadable(cfg, run, Failed, Rest(r.times), failure);
    } else {
      RecordReadable(cfg.rules, run, r.publication.value, cfg.actorId, r.times[0]);
      var updated := TimedRecord(cfg, run, r.publication.value, r.times).value;
      TimedReadable(cfg, updated, Completed, Rest(r.times), []);
    }
  }

  /** One pass of the loop writes a checkpoint that is as readable as the one it started from. */
  lemma AdvanceReadable(cfg: Config, item: WorkItem, run: WorkRun, r: Response)
    requires run.events != [] && ResponseOk(cfg.rules, r) && Advance(cfg, item, run, r).Ok?
    ensures KeepsReadable(run, Advance(cfg, item, run, r).value)
  {
    hide KeepsReadable, Conclude, TimedTransition, Execute, Verify, Publish, ArtifactsOk;
    match run.state
    case Approved => TimedReadable(cfg, run, Executing, r.times, []);
    case Executing => ExecuteReadable(cfg, item, run, r);
    case Verifying => VerifyReadable(cfg, run, r);
    case Remediating =>
      ConcludeReadable(
        cfg, run, "remediation",
        match r.remediation case None => Err(PortFault) case Some(artifacts) => Ok(artifacts), r.times, Verifying, None);
    case PublishingDraftPr => PublishReadable(cfg, run, r);
    case _ =>
  }

  // ---------------------------------------------------------------- histories

  predicate Readable(run: WorkRun) {
    DistinctDetails(run.events) && CanonicalNames(run.events)
  }

  lemma PristineIsReadable(run: WorkRun)
    requires Pristine(run) && Clean(run)
    ensures Readable(run)
  {
  }

  lemma FirstIsReadable(cfg: Config, id: string, log: seq<Entry>)
    requires log != [] && LogOk(cfg, id, log)
    ensures Readable(log[0].after)
  {
    hide Valid, Accepted, DistinctDetails, CanonicalNames;
    assert EntryOk(cfg, id, log, 0);
    match log[0].cause
    case Ingested(_) => PristineIsReadable(log[0].after);
    case NotReady(approved, summary, times) =>
      PristineIsReadable(approved);
      TimedReadable(
        cfg, approved, Blocked, times, [("failure_code", "work_item_not_ready"), ("summary", summary)]);
    case _ =>
  }

  /** No history ever stores a checkpoint that its own store cannot read back. */
  lemma {:induction false} LogIsReadable(cfg: Config, id: string, log: seq<Entry>, i: nat)
    requires LogOk(cfg, id, log) && i < |log|
    ensures Readable(log[i].after)
  {
    hide Valid, Accepted, Clean, Advance, Progress, WorkItemOk, TransitionTo, DistinctDetails, CanonicalNames;
    assert EntryOk(cfg, id, log, i);
    if i == 0 {
      FirstIsReadable(cfg, id, log);
    } else {
      LogIsReadable(cfg, id, log, i - 1);
      var before := log[i - 1].after;
      match log[i].cause
      case Stage(item, response) => AdvanceReadable(cfg, item, before, response);
      case Commanded(target, actor, at) => TransitionReadable(cfg.rules, before, target, actor, at, []);
      case _ =>
    }
  }

  /** Every checkpoint of every history, written to its file and read again, is the same checkpoint. */
  lemma CheckpointsAreReadBack(cfg: Config, id: string, codec: Codec, actions: seq<Action>)
    requires ActionsOk(cfg, id, actions) && TimesRoundTrip(codec) && CaseIsStable(cfg.rules)
    ensures
      var log := History(cfg, actions).log;
      forall i | 0 <= i < |log| :: Deserialize(cfg.rules, codec, Envelope(codec, log[i].after)) == Ok(log[i].after)
  {
    hide LogOk, ProcessesOk, ReportsOk, RequestsOk, History, Deserialize, Envelope, Valid, TimesRoundTrip, CaseIsStable;
    HistoryKeeps(cfg, id, actions);
    var log := History(cfg, actions).log;
    forall i: nat | i < |log|
      ensures Deserialize(cfg.rules, codec, Envelope(codec, log[i].after)) == Ok(log[i].after)
    {
      LogIsReadable(cfg, id, log, i);
      EntryIsStored(cfg, id, log, i);
      RoundTrip(cfg.rules, codec, log[i].after);
    }
  }
}
