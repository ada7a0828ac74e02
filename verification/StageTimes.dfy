/**
 Whose time and whose name an event carries: every event that a stage adds is stamped with the
 reading of the clock that was taken for it, and with the orchestrator as its actor.
 */
module StageTimes {
  import opened Wrappers
  import opened Text
  import opened WorkRuns
  import opened CheckpointValidation
  import opened WorkItems
  import opened WorkflowStages

  /** The `i`-th event that `after` adds to `before` carries the reading `first + i` and the orchestrator's name. */
  predicate StampedAt(cfg: Config, before: WorkRun, after: WorkRun, times: seq<Reading>, first: nat, i: int) {
    && 0 <= i < |after.events| - |before.events| && first + i < |times|
    && times[first + i].Aware?
    && var e := after.events[|before.events| + i];
       e.at == times[first + i].instant && e.actor == Strip(cfg.actorId)
  }

  /** All events that `after` adds to `before` carry successive readings, from number `first` on. */
  predicate Stamped(cfg: Config, before: WorkRun, after: WorkRun, times: seq<Reading>, first: nat) {
    && before.events <= after.events
    && forall i | 0 <= i < |after.events| - |before.events| :: StampedAt(cfg, before, after, times, first, i)
  }

  lemma TransitionIsStamped(cfg: Config, run: WorkRun, target: State, times: seq<Reading>, details: Details)
    requires run.events != [] && TimedTransition(cfg, run, target, times, details).Ok?
    ensures
      var next := TimedTransition(cfg, run, target, times, details).value;
      && Stamped(cfg, run, next, times, 0) && |next.events| == |run.events| + 1
      && times != [] && times[0].Aware? && next.state == target
      && next.events == run.events + [Event(
           |run.events| + 1, Entered(target), target, Strip(cfg.actorId), times[0].instant, TrimDetails(details))]
  {
    hide Invariant, DetailOk, IsIdentifier;
  }

  lemma AttachIsStamped(cfg: Config, run: WorkRun, artifact: Artifact, times: seq<Reading>)
    requires run.events != [] && TimedAttach(cfg, run, artifact, times).Ok?
    ensures
      var next := TimedAttach(cfg, run, artifact, times).value;
      Stamped(cfg, run, next, times, 0) && |next.events| == |run.events| + 1
  {
    hide Invariant, DetailOk, IsIdentifier, ArtifactDetails;
  }

  lemma RecordIsStamped(cfg: Config, run: WorkRun, url: string, times: seq<Reading>)
    requires run.events != [] && TimedRecord(cfg, run, url, times).Ok?
    ensures
      var next := TimedRecord(cfg, run, url, times).value;
      Stamped(cfg, run, next, times, 0) && |next.events| == |run.events| + 1
  {
    hide Invariant, DetailOk, IsIdentifier;
  }

  /** The readings that a first part used up are followed by those of a second part. */
  lemma StampedThen(cfg: Config, a: WorkRun, b: WorkRun, c: WorkRun, times: seq<Reading>, used: nat)
    requires used <= |times| && |b.events| == |a.events| + used
    requires Stamped(cfg, a, b, times, 0) && Stamped(cfg, b, c, times[used..], 0)
    ensures Stamped(cfg, a, c, times, 0)
  {
    forall i | 0 <= i < |c.events| - |a.events|
      ensures StampedAt(cfg, a, c, times, 0, i)
    {
      if i < used {
        assert StampedAt(cfg, a, b, times, 0, i);
      } else {
        assert StampedAt(cfg, b, c, times[used..], 0, i - used);
      }
    }
  }

  /** The events of a run that goes on from a later reading. */
  lemma StampedLater(cfg: Config, a: WorkRun, b: WorkRun, times: seq<Reading>, used: nat)
    requires used <= |times| && Stamped(cfg, a, b, times[used..], 0)
    ensures Stamped(cfg, a, b, times, used)
  {
    forall i | 0 <= i < |b.events| - |a.events|
      ensures StampedAt(cfg, a, b, times, used, i)
    {
      assert StampedAt(cfg, a, b, times[used..], 0, i);
    }
  }

  lemma {:induction false} AttachAllIsStamped(cfg: Config, run: WorkRun, artifacts: seq<Artifact>, times: seq<Reading>)
    requires run.events != [] && AttachAll(cfg, run, artifacts, times).0.Ok?
    ensures
      var (result, rest) := AttachAll(cfg, run, artifacts, times);
      && |artifacts| <= |times| && rest == times[|artifacts|..]
      && Stamped(cfg, run, result.value, times, 0)
      && |result.value.events| == |run.events| + |artifacts|
    decreases |artifacts|
  {
    hide TimedAttach, StampedAt;
    if artifacts != [] {
      AttachIsStamped(cfg, run, artifacts[0], times);
      var next := TimedAttach(cfg, run, artifacts[0], times).value;
      StampedHasReading(cfg, run, next, times);
      AttachAllIsStamped(cfg, next, artifacts[1..], times[1..]);
      StampedThen(cfg, run, next, AttachAll(cfg, run, artifacts, times).0.value, times, 1);
    }
  }

  lemma StampedHasReading(cfg: Config, run: WorkRun, next: WorkRun, times: seq<Reading>)
    requires Stamped(cfg, run, next, times, 0) && |next.events| > |run.events|
    ensures times != []
  {
    assert StampedAt(cfg, run, next, times, 0, 0);
  }

  /** The artifacts before `m` can be attached, and the one at `m` cannot. */
  predicate AttachFailsAt(cfg: Config, run: WorkRun, artifacts: seq<Artifact>, times: seq<Reading>, m: int)
    requires run.events != []
  {
    && 0 <= m < |artifacts|
    && AttachAll(cfg, run, artifacts[..m], times).0.Ok?
    && AttachAll(cfg, run, artifacts[..m + 1], times).0.Err?
  }

  /** An attachment that fails has used the readings up to its own. */
  lemma {:induction false} FailedAttachUses(cfg: Config, run: WorkRun, artifacts: seq<Artifact>, times: seq<Reading>)
    returns (m: nat)
    requires run.events != [] && AttachAll(cfg, run, artifacts, times).0.Err?
    ensures AttachFailsAt(cfg, run, artifacts, times, m)
    ensures AttachAll(cfg, run, artifacts, times).1 == if m < |times| then times[m + 1..] else []
    decreases |artifacts|
  {
    hide TimedAttach;
    var first := TimedAttach(cfg, run, artifacts[0], times);
    if first.Err? {
      m := 0;
      assert artifacts[..1] == [artifacts[0]];
    } else {
      AttachIsStamped(cfg, run, artifacts[0], times);
      StampedHasReading(cfg, run, first.value, times);
      var n := FailedAttachUses(cfg, first.value, artifacts[1..], times[1..]);
      m := n + 1;
      assert artifacts[..m][1..] == artifacts[1..][..n];
      assert artifacts[..m + 1][1..] == artifacts[1..][..n + 1];
    }
  }

  // ---------------------------------------------------------------- one pass of the loop

  /** The evidence that a stage has in hand when it starts to attach. */
  function InHand(cfg: Config, run: WorkRun, r: Response): Option<seq<Artifact>> {
    match run.state
    case Executing =>
      if r.execution.None? then None
      else
        (match ToArtifacts(cfg.rules, run.runId + ":execution:1", r.execution.value.files)
         case Ok(artifacts) => Some(artifacts)
         case Err(_) => None)
    case Verifying => if r.verification.Some? then Some(r.verification.value.artifacts) else None
    case Remediating => r.remediation
    case _ => None
  }

  /** How many readings were used up by a step that failed, before those of the saved events. */
  predicate Used(cfg: Config, before: WorkRun, after: WorkRun, r: Response, used: int)
    requires before.events != []
  {
    if !after.state.Failed? then used == 0
    else if before.state.PublishingDraftPr? then used == if r.publication.Some? then 1 else 0
    else
      var evidence := InHand(cfg, before, r);
      if evidence.None? || AttachAll(cfg, before, evidence.value, r.times).0.Ok? then used == 0
      else AttachFailsAt(cfg, before, evidence.value, r.times, used - 1)
  }

  /** The events of a save carry the readings that were taken for them. */
  ghost predicate PassIsStamped(cfg: Config, before: WorkRun, after: WorkRun, r: Response)
    requires before.events != []
  {
    exists used: nat :: Used(cfg, before, after, r, used) && Stamped(cfg, before, after, r.times, used)
  }

  lemma ConcludeIsStamped(
    cfg: Config, run: WorkRun, stage: string, evidence: Result<seq<Artifact>, Fault>, times: seq<Reading>,
    target: State, failureCode: Option<string>)
    returns (used: nat)
    requires run.events != [] && Conclude(cfg, run, stage, evidence, times, target, failureCode).Ok?
    ensures Stamped(cfg, run, Conclude(cfg, run, stage, evidence, times, target, failureCode).value, times, used)
    ensures
      if evidence.Err? || AttachAll(cfg, run, evidence.value, times).0.Ok? then used == 0
      else
        && Conclude(cfg, run, stage, evidence, times, target, failureCode).value.state.Failed?
        && AttachFailsAt(cfg, run, evidence.value, times, used - 1)
  {
    hide TimedTransition, AttachAll, Stamped, AttachFailsAt;
    var next := Conclude(cfg, run, stage, evidence, times, target, failureCode).value;
    used := 0;
    if evidence.Err? {
      FailIsStamped(cfg, run, stage, "operation_failed", times);
    } else {
      var (attached, rest) := AttachAll(cfg, run, evidence.value, times);
      if attached.Err? {
        FailIsStamped(cfg, run, stage, "operation_failed", rest);
        var m := FailedAttachUses(cfg, run, evidence.value, times);
        StampedHasReading(cfg, run, next, rest);
        used := m + 1;
        StampedLater(cfg, run, next, times, used);
      } else {
        AttachAllIsStamped(cfg, run, evidence.value, times);
        match failureCode {
          case Some(code) => FailIsStamped(cfg, attached.value, stage, code, rest);
          case None => TransitionIsStamped(cfg, attached.value, target, rest, []);
        }
        StampedThen(cfg, run, attached.value, next, times, |evidence.value|);
      }
    }
  }

  lemma FailIsStamped(cfg: Config, run: WorkRun, stage: string, code: string, times: seq<Reading>)
    requires run.events != [] && FailFrom(cfg, run, stage, code, times).Ok?
    ensures
      var next := FailFrom(cfg, run, stage, code, times).value;
      Stamped(cfg, run, next, times, 0) && |next.events| == |run.events| + 1 && next.state.Failed?
  {
    hide TimedTransition, Stamped;
    TransitionIsStamped(cfg, run, Failed, times, [("failure_code", code), ("stage", stage)]);
  }

  /** The stage that a pass concludes, where it concludes one. */
  lemma ConcludedPass(
    cfg: Config, run: WorkRun, r: Response, stage: string, evidence: Result<seq<Artifact>, Fault>, target: State,
    failureCode: Option<string>)
    requires run.events != [] && !run.state.PublishingDraftPr?
    requires Conclude(cfg, run, stage, evidence, r.times, target, failureCode).Ok?
    requires InHand(cfg, run, r) == match evidence case Ok(artifacts) => Some(artifacts) case Err(_) => None
    ensures PassIsStamped(cfg, run, Conclude(cfg, run, stage, evidence, r.times, target, failureCode).value, r)
  {
    hide Conclude, Stamped, InHand, AttachFailsAt, AttachAll;
    var next := Conclude(cfg, run, stage, evidence, r.times, target, failureCode).value;
    var used := ConcludeIsStamped(cfg, run, stage, evidence, r.times, target, failureCode);
    assert Used(cfg, run, next, r, used);
  }

  lemma ExecuteIsStamped(cfg: Config, item: WorkItem, run: WorkRun, r: Response)
    requires run.events != [] && run.state.Executing? && Execute(cfg, item, run, r).Ok?
    ensures PassIsStamped(cfg, run, Execute(cfg, item, run, r).value, r)
  {
    hide Conclude, TimedTransition, Stamped, ToArtifacts, RequestOk, ContentOf, AttachAll, PassIsStamped;
    if !r.policy.value.allowed {
      var details := [("failure_code", "policy_denied"), ("summary", r.policy.value.reason)];
      TransitionIsStamped(cfg, run, Blocked, r.times, details);
      UndisturbedPass(cfg, run, Execute(cfg, item, run, r).value, r);
    } else if r.execution.None? {
      ConcludedPass(cfg, run, r, "execution", Err(PortFault), Verifying, None);
    } else {
      var execution := r.execution.value;
      ConcludedPass(
        cfg, run, r, "execution", ToArtifacts(cfg.rules, run.runId + ":execution:1", execution.files), Verifying,
        if execution.outcome.OutcomeCompleted? then None else Some("execution_" + OutcomeText(execution.outcome)));
    }
  }

  /** Nothing failed on the way. */
  lemma UndisturbedPass(cfg: Config, before: WorkRun, after: WorkRun, r: Response)
    requires before.events != [] && !after.state.Failed? && Stamped(cfg, before, after, r.times, 0)
    ensures PassIsStamped(cfg, before, after, r)
  {
    hide Stamped;
    assert Used(cfg, before, after, r, 0);
  }

  lemma VerifyIsStamped(cfg: Config, run: WorkRun, r: Response)
    requires run.events != [] && run.state.Verifying? && Verify(cfg, run, r).Ok?
    ensures PassIsStamped(cfg, run, Verify(cfg, run, r).value, r)
  {
    hide Conclude, RemediationCount, PassIsStamped;
    if r.verification.None? {
      ConcludedPass(cfg, run, r, "verification", Err(PortFault), Remediating, None);
    } else {
      var verdict := r.verification.value;
      var overLimit := 1 + RemediationCount(run) > cfg.maxCycles;
      ConcludedPass(
        cfg, run, r, "verification", Ok(verdict.artifacts),
        if verdict.passed then PublishingDraftPr else Remediating,
        if !verdict.passed && overLimit then Some("remediation_limit_reached") else None);
    }
  }

  lemma RemediateIsStamped(cfg: Config, run: WorkRun, r: Response)
    requires run.events != [] && run.state.Remediating? && Remediate(cfg, run, r).Ok?
    ensures PassIsStamped(cfg, run, Remediate(cfg, run, r).value, r)
  {
    hide Conclude, PassIsStamped;
    var evidence := match r.remediation case None => Err(PortFault) case Some(artifacts) => Ok(artifacts);
    ConcludedPass(cfg, run, r, "remediation", evidence, Verifying, None);
  }

  lemma PublishIsStamped(cfg: Config, run: WorkRun, r: Response)
    requires run.events != [] && run.state.PublishingDraftPr? && Publish(cfg, run, r).Ok?
    ensures PassIsStamped(cfg, run, Publish(cfg, run, r).value, r)
  {
    hide TimedTransition, TimedRecord, Stamped;
    var next := Publish(cfg, run, r).value;
    var times := r.times;
    if r.publication.None? {
      FailIsStamped(cfg, run, "draft_pr_publication", "operation_failed", times);
      assert Used(cfg, run, next, r, 0);
    } else {
      var recorded := TimedRecord(cfg, run, r.publication.value, times);
      if recorded.Err? {
        FailIsStamped(cfg, run, "draft_pr_publication", "operation_failed", Rest(times));
        StampedHasReading(cfg, run, next, Rest(times));
        StampedLater(cfg, run, next, times, 1);
        assert Used(cfg, run, next, r, 1);
      } else {
        RecordIsStamped(cfg, run, r.publication.value, times);
        StampedHasReading(cfg, run, recorded.value, times);
        TransitionIsStamped(cfg, recorded.value, Completed, Rest(times), []);
        StampedThen(cfg, run, recorded.value, next, times, 1);
        UndisturbedPass(cfg, run, next, r);
      }
    }
  }

  /** Whatever a pass saves, its events carry the readings that were taken for them, and the orchestrator's name. */
  lemma AdvanceIsStamped(cfg: Config, item: WorkItem, run: WorkRun, r: Response)
    requires run.events != [] && Advance(cfg, item, run, r).Ok?
    ensures PassIsStamped(cfg, run, Advance(cfg, item, run, r).value, r)
  {
    hide TimedTransition, Stamped, PassIsStamped, Execute, Verify, Remediate, Publish;
    match run.state
    case Approved =>
      TransitionIsStamped(cfg, run, Executing, r.times, []);
      UndisturbedPass(cfg, run, Advance(cfg, item, run, r).value, r);
    case Executing => ExecuteIsStamped(cfg, item, run, r);
    case Verifying => VerifyIsStamped(cfg, run, r);
    case Remediating => RemediateIsStamped(cfg, run, r);
    case PublishingDraftPr => PublishIsStamped(cfg, run, r);
    case _ =>
  }
}
