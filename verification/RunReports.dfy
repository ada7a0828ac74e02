/**
 Reports over whole histories: there is at most one, it says what is stored and why, and exactly
 which histories end without one.
 */
module RunReports {
  import opened Wrappers
  import opened Text
  import opened WorkRuns
  import opened CheckpointValidation
  import opened WorkItems
  import opened WorkflowStages
  import opened OutcomeReports
  import opened RunHistories

  // ---------------------------------------------------------------- why a stage stops a run

  lemma DetailsOfTransition(
    rules: Rules, run: WorkRun, target: State, actor: string, at: Reading, details: Details)
    requires TransitionTo(rules, run, target, actor, at, details).Ok?
    ensures
      var next := TransitionTo(rules, run, target, actor, at, details).value;
      && next.state == target && next.events != []
      && next.events[|next.events| - 1].details == TrimDetails(details)
  {
    hide Invariant, DetailOk;
  }

  lemma TransitionStops(
    cfg: Config, run: WorkRun, target: State, times: seq<Reading>, code: string, key: string, text: string)
    requires run.events != [] && (if target.Failed? then key == "stage" else target.Blocked? && key == "summary")
    requires TimedTransition(cfg, run, target, times, [("failure_code", code), (key, text)]).Ok?
    ensures
      StoppedWith(
        TimedTransition(cfg, run, target, times, [("failure_code", code), (key, text)]).value, code, key, text)
  {
    hide TransitionTo, TrimDetails;
    DetailsOfTransition(cfg.rules, run, target, cfg.actorId, times[0], [("failure_code", code), (key, text)]);
  }

  lemma TransitionGoes(cfg: Config, run: WorkRun, target: State, times: seq<Reading>, details: Details)
    requires run.events != [] && TimedTransition(cfg, run, target, times, details).Ok?
    ensures TimedTransition(cfg, run, target, times, details).value.state == target
  {
    hide TransitionTo;
    DetailsOfTransition(cfg.rules, run, target, cfg.actorId, times[0], details);
  }

  /** A concluded stage fails with its own code once all its evidence is attached, else with `operation_failed`. */
  lemma ConcludeStops(
    cfg: Config, run: WorkRun, stage: string, evidence: Result<seq<Artifact>, Fault>, times: seq<Reading>,
    target: State, failureCode: Option<string>)
    requires run.events != [] && !Terminal(target)
    requires Conclude(cfg, run, stage, evidence, times, target, failureCode).Ok?
    ensures
      var next := Conclude(cfg, run, stage, evidence, times, target, failureCode).value;
      var attached := evidence.Ok? && AttachAll(cfg, run, evidence.value, times).0.Ok?;
      && (next.state.Failed? || next.state == target)
      && (next.state.Failed? ==>
            if attached then failureCode.Some? && StoppedWith(next, failureCode.value, "stage", stage)
            else StoppedWith(next, "operation_failed", "stage", stage))
  {
    hide AttachAll, TimedTransition, StoppedWith;
    var attached := evidence.Ok? && AttachAll(cfg, run, evidence.value, times).0.Ok?;
    if attached {
      var (updated, rest) := AttachAll(cfg, run, evidence.value, times);
      match failureCode
      case Some(code) =>
        TransitionStops(cfg, updated.value, Failed, rest, code, "stage", stage);
        TransitionGoes(cfg, updated.value, Failed, rest, [("failure_code", code), ("stage", stage)]);
      case None => TransitionGoes(cfg, updated.value, target, rest, []);
    } else {
      var rest := if evidence.Ok? then AttachAll(cfg, run, evidence.value, times).1 else times;
      TransitionStops(cfg, run, Failed, rest, "operation_failed", "stage", stage);
      TransitionGoes(cfg, run, Failed, rest, [("failure_code", "operation_failed"), ("stage", stage)]);
    }
  }

  function StageName(s: State): string {
    match s
    case Executing => "execution"
    case Verifying => "verification"
    case Remediating => "remediation"
    case _ => "draft_pr_publication"
  }

  /** The code with which execution fails for each outcome that its report may have. */
  function ExecutionCode(o: Outcome): string {
    match o
    case OutcomeCompleted => "execution_completed"
    case OutcomeBlocked => "execution_blocked"
    case OutcomeFailed => "execution_failed"
    case OutcomeCancelled => "execution_cancelled"
    case OutcomeTimedOut => "execution_timed_out"
    case OutcomeExhausted => "execution_resource_exhausted"
  }

  lemma ExecutionCodeIsSpelled(o: Outcome)
    ensures "execution_" + OutcomeText(o) == ExecutionCode(o)
  {
    match o
    case OutcomeCompleted => assert "execution_" + "completed" == "execution_completed";
    case OutcomeBlocked => assert "execution_" + "blocked" == "execution_blocked";
    case OutcomeFailed => assert "execution_" + "failed" == "execution_failed";
    case OutcomeCancelled => assert "execution_" + "cancelled" == "execution_cancelled";
    case OutcomeTimedOut => assert "execution_" + "timed_out" == "execution_timed_out";
    case OutcomeExhausted => assert "execution_" + "resource_exhausted" == "execution_resource_exhausted";
  }

  /** The code with which a stage fails, given the answers of its ports. */
  function FailureCode(cfg: Config, run: WorkRun, r: Response): string
    requires run.events != []
  {
    match run.state
    case Executing =>
      if r.execution.None? then "operation_failed"
      else
        var artifacts := ToArtifacts(cfg.rules, run.runId + ":execution:1", r.execution.value.files);
        if artifacts.Ok? && AttachAll(cfg, run, artifacts.value, r.times).0.Ok?
        then ExecutionCode(r.execution.value.outcome)
        else "operation_failed"
    case Verifying =>
      if r.verification.Some? && AttachAll(cfg, run, r.verification.value.artifacts, r.times).0.Ok?
      then "remediation_limit_reached"
      else "operation_failed"
    case _ => "operation_failed"
  }

  lemma ExecuteStops(cfg: Config, item: WorkItem, run: WorkRun, r: Response)
    requires run.events != [] && run.state.Executing? && Execute(cfg, item, run, r).Ok?
    ensures
      var next := Execute(cfg, item, run, r).value;
      && (next.state.Failed? ==> StoppedWith(next, FailureCode(cfg, run, r), "stage", "execution"))
      && (next.state.Blocked? ==>
            r.policy.Some? && StoppedWith(next, "policy_denied", "summary", r.policy.value.reason))
      && !next.state.Completed? && !next.state.Cancelled?
  {
    hide Conclude, AttachAll, TimedTransition, StoppedWith, RequestOk, ToArtifacts, ContentOf, OutcomeText, ExecutionCode;
    if !r.policy.value.allowed {
      TransitionStops(cfg, run, Blocked, r.times, "policy_denied", "summary", r.policy.value.reason);
      TransitionGoes(
        cfg, run, Blocked, r.times, [("failure_code", "policy_denied"), ("summary", r.policy.value.reason)]);
    } else if r.execution.None? {
      ConcludeStops(cfg, run, "execution", Err(PortFault), r.times, Verifying, None);
    } else {
      var execution := r.execution.value;
      ExecutionCodeIsSpelled(execution.outcome);
      ConcludeStops(
        cfg, run, "execution", ToArtifacts(cfg.rules, run.runId + ":execution:1", execution.files), r.times, Verifying,
        if execution.outcome.OutcomeCompleted? then None else Some("execution_" + OutcomeText(execution.outcome)));
    }
  }

  lemma VerifyStops(cfg: Config, run: WorkRun, r: Response)
    requires run.events != [] && run.state.Verifying? && Verify(cfg, run, r).Ok?
    ensures
      var next := Verify(cfg, run, r).value;
      && (next.state.Failed? ==> StoppedWith(next, FailureCode(cfg, run, r), "stage", "verification"))
      && !next.state.Blocked? && !next.state.Completed? && !next.state.Cancelled?
  {
    hide Conclude, AttachAll, TimedTransition, StoppedWith, RemediationCount;
    if r.verification.None? {
      ConcludeStops(cfg, run, "verification", Err(PortFault), r.times, Remediating, None);
    } else {
      var verdict := r.verification.value;
      var overLimit := 1 + RemediationCount(run) > cfg.maxCycles;
      ConcludeStops(
        cfg, run, "verification", Ok(verdict.artifacts), r.times,
        if verdict.passed then PublishingDraftPr else Remediating,
        if !verdict.passed && overLimit then Some("remediation_limit_reached") else None);
    }
  }

  lemma RemediateStops(cfg: Config, run: WorkRun, r: Response)
    requires run.events != [] && run.state.Remediating? && Remediate(cfg, run, r).Ok?
    ensures
      var next := Remediate(cfg, run, r).value;
      && (next.state.Failed? ==> StoppedWith(next, "operation_failed", "stage", "remediation"))
      && !next.state.Blocked? && !next.state.Completed? && !next.state.Cancelled?
  {
    hide Conclude, AttachAll, TimedTransition, StoppedWith;
    var evidence := match r.remediation case None => Err(PortFault) case Some(artifacts) => Ok(artifacts);
    ConcludeStops(cfg, run, "remediation", evidence, r.times, Verifying, None);
  }

  lemma RecordedHasEvents(cfg: Config, run: WorkRun, url: string, times: seq<Reading>)
    requires run.events != [] && TimedRecord(cfg, run, url, times).Ok?
    ensures TimedRecord(cfg, run, url, times).value.events != []
  {
    hide Invariant, MakeEvent;
  }

  lemma PublishStops(cfg: Config, run: WorkRun, r: Response)
    requires run.events != [] && run.state.PublishingDraftPr? && Publish(cfg, run, r).Ok?
    ensures
      var next := Publish(cfg, run, r).value;
      && (next.state.Failed? ==> StoppedWith(next, "operation_failed", "stage", "draft_pr_publication"))
      && (next.state.Failed? || next.state.Completed?)
  {
    hide TimedTransition, StoppedWith, TimedRecord;
    var failure := [("failure_code", "operation_failed"), ("stage", "draft_pr_publication")];
    if r.publication.None? {
      TransitionStops(cfg, run, Failed, r.times, "operation_failed", "stage", "draft_pr_publication");
      TransitionGoes(cfg, run, Failed, r.times, failure);
    } else {
      var recorded := TimedRecord(cfg, run, r.publication.value, r.times);
      if recorded.Err? {
        TransitionStops(cfg, run, Failed, Rest(r.times), "operation_failed", "stage", "draft_pr_publication");
        TransitionGoes(cfg, run, Failed, Rest(r.times), failure);
      } else {
        RecordedHasEvents(cfg, run, r.publication.value, r.times);
        TransitionGoes(cfg, recorded.value, Completed, Rest(r.times), []);
      }
    }
  }

  /** Whatever stage stops a run writes its code and its reason into the last event. */
  lemma AdvanceStops(cfg: Config, item: WorkItem, run: WorkRun, r: Response)
    requires run.events != [] && Advance(cfg, item, run, r).Ok?
    ensures
      var next := Advance(cfg, item, run, r).value;
      && (next.state.Failed? ==> StoppedWith(next, FailureCode(cfg, run, r), "stage", StageName(run.state)))
      && (next.state.Blocked? ==>
            r.policy.Some? && StoppedWith(next, "policy_denied", "summary", r.policy.value.reason))
      && !next.state.Cancelled?
  {
    hide TimedTransition, StoppedWith, Execute, Verify, Remediate, Publish;
    match run.state
    case Approved => TransitionGoes(cfg, run, Executing, r.times, []);
    case Executing => ExecuteStops(cfg, item, run, r);
    case Verifying => VerifyStops(cfg, run, r);
    case Remediating => RemediateStops(cfg, run, r);
    case PublishingDraftPr => PublishStops(cfg, run, r);
    case _ =>
  }

  // ---------------------------------------------------------------- why the last save stopped the run

  /** A failure code, with the stage or a summary. */
  datatype Reason = Reason(code: string, key: string, text: string)

  function ReasonOf(cfg: Config, e: Entry): Reason {
    match e.cause
    case NotReady(_, summary, _) => Reason("work_item_not_ready", "summary", summary)
    case Stage(_, response) =>
      if e.after.state.Blocked? && response.policy.Some? then
        Reason("policy_denied", "summary", response.policy.value.reason)
      else if e.before.Some? && e.before.value.events != [] then
        Reason(FailureCode(cfg, e.before.value, response), "stage", StageName(e.before.value.state))
      else Reason("", "", "")
    case _ => Reason("", "", "")
  }

  /** A save by a runner that stopped the run, and its reason. */
  ghost predicate Explained(cfg: Config, e: Entry) {
    var why := ReasonOf(cfg, e);
    |why.code| <= 512 && StoppedWith(e.after, why.code, why.key, why.text)
  }

  lemma CodesAreShort(cfg: Config, run: WorkRun, r: Response)
    requires run.events != []
    ensures |FailureCode(cfg, run, r)| <= 512
  {
    hide AttachAll, ToArtifacts;
  }

  lemma LastIsExplained(cfg: Config, id: string, log: seq<Entry>)
    requires LogOk(cfg, id, log) && log != [] && !log[|log| - 1].cause.Commanded?
    requires log[|log| - 1].after.state.Failed? || log[|log| - 1].after.state.Blocked?
    ensures Explained(cfg, log[|log| - 1])
  {
    hide Storable, Advance, Progress, WorkItemOk, ResponseOk, StoppedWith, FailureCode, TimedTransition;
    var i := |log| - 1;
    var e := log[i];
    assert EntryOk(cfg, id, log, i);
    match e.cause
    case NotReady(approved, summary, times) =>
      TransitionStops(cfg, approved, Blocked, times, "work_item_not_ready", "summary", summary);
    case Stage(item, response) =>
      AdvanceStops(cfg, item, log[i - 1].after, response);
      CodesAreShort(cfg, log[i - 1].after, response);
    case _ =>
  }

  // ---------------------------------------------------------------- at most one report

  /** The report says what is stored: completion with the Draft PR, or a blocker with its reason. */
  predicate Announces(cfg: Config, e: Entry, notice: Notice) {
    var run, why := e.after, ReasonOf(cfg, e);
    match run.state
    case Completed =>
      && run.draftPrUrl.Some?
      && notice.Completion?
      && notice.issueKey == run.correlation.issueKey
      && notice.idempotencyKey == run.runId + ":report:" + "completed"
      && notice.summary == "GearMeshing-AI " + "completed " + "the governed " + "work run."
      && notice.evidenceUrl == run.draftPrUrl.value
    case Failed =>
      && notice.Blocker?
      && notice.issueKey == run.correlation.issueKey
      && notice.idempotencyKey == run.runId + ":report:" + "failed"
      && notice.summary == Strip(why.code)
      && notice.details == "The work " + "run entered " + "failed" + "."
    case Blocked =>
      && notice.Blocker?
      && notice.issueKey == run.correlation.issueKey
      && notice.idempotencyKey == run.runId + ":report:" + "blocked"
      && notice.summary == Strip(why.code)
      && notice.details == Strip(why.text)
    case _ => false
  }

  lemma NoticeAnnounces(cfg: Config, e: Entry, notice: Notice)
    requires
      var run, why := e.after, ReasonOf(cfg, e);
      match run.state
      case Completed =>
        && run.draftPrUrl.Some?
        && notice == Completion(run.correlation.issueKey, ReportKey(run), CompletionSummary(), run.draftPrUrl.value)
      case Failed | Blocked =>
        notice == Blocker(run.correlation.issueKey, ReportKey(run), Strip(why.code), BlockerDetails(run, why.text))
      case _ => false
    ensures Announces(cfg, e, notice)
  {
    hide ReasonOf, Strip;
  }

  /** What the save at the end of a log can be, when a runner made it. */
  lemma RunnersNeverCancel(cfg: Config, id: string, log: seq<Entry>)
    requires LogOk(cfg, id, log) && log != [] && !log[|log| - 1].cause.Commanded?
    ensures !log[|log| - 1].after.state.Cancelled?
  {
    hide Valid, Accepted, Clean, Advance, Progress, WorkItemOk, ResponseOk;
    var i := |log| - 1;
    assert EntryOk(cfg, id, log, i);
    if i > 0 {
      assert EntryOk(cfg, id, log, i - 1);
      AdvanceProgress(cfg, log[i].cause.item, log[i - 1].after, log[i].cause.response);
    }
  }

  /** An update that was built has the trimmed texts it was given. */
  lemma BuiltNotice(rules: Rules, run: WorkRun, why: Reason, notice: Notice)
    requires Valid(rules, run) && NoticeOf(rules, run) == Ok(Some(notice))
    requires run.state.Completed? || StoppedWith(run, why.code, why.key, why.text)
    ensures if run.state.Completed?
            then run.draftPrUrl.Some?
                 && notice == Completion(
                   run.correlation.issueKey, ReportKey(run), CompletionSummary(), run.draftPrUrl.value)
            else notice == Blocker(
              run.correlation.issueKey, ReportKey(run), Strip(why.code), BlockerDetails(run, why.text))
  {
    hide ReportKey, StateText, EnteredText, CompletionSummary, NoControls, HistoryOk, EventsProducible, IsIssueKey, Strip;
    IssueKeyIsPrintable(run.correlation.issueKey);
    ReportKeyIsPrintable(run);
    TrimmedIsStripped(run.correlation.issueKey);
    TrimmedIsStripped(ReportKey(run));
    if run.state.Completed? {
      SummaryIsPrintable();
      TrimmedIsStripped(CompletionSummary());
      TrimmedIsStripped(run.draftPrUrl.value);
    } else {
      EnteredTextIsPrintable(run.state);
      TrimmedIsStripped(EnteredText(run.state));
      StripStable(why.code);
      StripStable(why.text);
      StopSays(rules, run, why.code, why.key, why.text);
    }
  }

  lemma TrimmedIsStripped(s: string)
    requires Trimmed(s)
    ensures Strip(s) == s
  {
  }

  /** What the end of a history's log looks like when a runner finished the run. */
  lemma FinishedEntry(cfg: Config, id: string, log: seq<Entry>)
    requires LogOk(cfg, id, log) && log != []
    requires Terminal(log[|log| - 1].after.state) && !log[|log| - 1].cause.Commanded?
    ensures
      var e := log[|log| - 1];
      && Valid(cfg.rules, e.after)
      && (if e.after.state.Completed? then e.after.draftPrUrl.Some? else Explained(cfg, e))
  {
    hide Built, Explained, Accepted, LogOk, CorrelationOk, EventsProducible;
    EntryIsStored(cfg, id, log, |log| - 1);
    RunnersNeverCancel(cfg, id, log);
    if !log[|log| - 1].after.state.Completed? {
      LastIsExplained(cfg, id, log);
    }
  }

  /**
   At most one outcome report is ever attempted. It comes from the invocation whose save
   finished the run, that run is still what is stored, and the report says what is stored:
   completion with the recorded Draft PR, or a blocker with the failure code of the stage that
   stopped the run and, where the policy or the readiness check gave one, its reason.
   */
  lemma AtMostOneReport(cfg: Config, id: string, actions: seq<Action>)
    requires ActionsOk(cfg, id, actions)
    ensures
      var s := History(cfg, actions);
      && |s.reports| <= 1
      && forall r | r in s.reports ::
           && s.stored == Some(r.run)
           && FinishedBy(s.log, r.pid, r.run)
           && Announces(cfg, s.log[|s.log| - 1], r.notice)
  {
    hide LogOk, ProcessesOk, RequestsOk, History, Stored, NoticeOf, Valid, ReasonOf, StoppedWith, Announces;
    hide ReportKey, CompletionSummary, EnteredText;
    HistoryKeeps(cfg, id, actions);
    var s := History(cfg, actions);
    if s.reports != [] {
      var r := s.reports[0];
      FinishedEntry(cfg, id, s.log);
      RunnersNeverCancel(cfg, id, s.log);
      BuiltNotice(cfg.rules, r.run, ReasonOf(cfg, s.log[|s.log| - 1]), r.notice);
      NoticeAnnounces(cfg, s.log[|s.log| - 1], r.notice);
    }
  }

  // ---------------------------------------------------------------- when a report is not made

  /** A finished run's update can be built exactly when its keys and its URL fit. */
  lemma NoticeIsBuilt(cfg: Config, id: string, log: seq<Entry>)
    requires PrintableIsPlain(cfg.rules) && LogOk(cfg, id, log) && log != []
    requires Terminal(log[|log| - 1].after.state) && !log[|log| - 1].cause.Commanded?
    ensures
      var run := log[|log| - 1].after;
      if Fits(cfg.rules, run)
      then NoticeOf(cfg.rules, run).Ok? && NoticeOf(cfg.rules, run).value.Some?
      else NoticeOf(cfg.rules, run) == Err(ValidationFault)
  {
    hide LogOk, Stored, NoticeOf, Valid, ReasonOf, StoppedWith, PrintableIsPlain, Fits, ReportKey;
    FinishedEntry(cfg, id, log);
    var e := log[|log| - 1];
    if e.after.state.Completed? {
      CompletionIsReported(cfg.rules, e.after);
    } else {
      var why := ReasonOf(cfg, e);
      StopIsReported(cfg.rules, e.after, why.code, why.key, why.text);
    }
  }

  /**
   A published run completes with whatever URL its Draft PR rule lets through, and is reported
   only if the stricter rule for evidence URLs lets that URL through as well.
   */
  lemma PublicationIsReported(cfg: Config, run: WorkRun, r: Response)
    requires PrintableIsPlain(cfg.rules) && Sound(cfg, run) && run.state.PublishingDraftPr?
    requires Publish(cfg, run, r).Ok? && Publish(cfg, run, r).value.state.Completed?
    ensures
      var next := Publish(cfg, run, r).value;
      && r.publication.Some?
      && (NoticeOf(cfg.rules, next).Ok? <==>
            && |run.correlation.issueKey| <= 256 && |run.runId| <= 239
            && cfg.rules.reportUrl(Strip(r.publication.value)))
  {
    hide Accepted, Invariant, NoticeOf, PrintableIsPlain, EventsProducible, CorrelationOk, ArtifactsOk, Publish, Extends;
    PublishProgress(cfg, run, r);
    var next := Publish(cfg, run, r).value;
    PublishIsExtension(cfg, run, next);
    CompletionIsReported(cfg.rules, next);
    assert |StateText(Completed)| == 9;
  }

  lemma PublishIsExtension(cfg: Config, run: WorkRun, next: WorkRun)
    requires Progress(cfg, run, next)
    ensures next.runId == run.runId && next.correlation == run.correlation && Valid(cfg.rules, next)
  {
    hide Accepted, Valid, RemediationCount, Allowed, Clean;
  }

  /** The run has finished, nothing has been reported, and nobody is about to report. */
  predicate ReportLost(s: System) {
    && s.stored.Some? && Terminal(s.stored.value.state)
    && s.reports == []
    && forall pid | pid in s.processes :: !s.processes[pid].Reporting?
  }

  predicate Reports(s: System, pid: nat) {
    pid in s.processes && s.processes[pid].Reporting?
  }

  /** The process that finished the run dies before it reports. */
  predicate CrashesReport(s: System, a: Action) {
    a.Crash? && Reports(s, a.pid)
  }

  /** The update cannot be built, so the process ends without reporting. */
  predicate RefusesReport(cfg: Config, s: System, a: Action) {
    a.Notify? && Reports(s, a.pid) && !Fits(cfg.rules, s.processes[a.pid].run)
  }

  predicate CrashedAt(cfg: Config, actions: seq<Action>, j: int) {
    0 <= j < |actions| && CrashesReport(History(cfg, actions[..j]), actions[j])
  }

  predicate RefusedAt(cfg: Config, actions: seq<Action>, j: int) {
    0 <= j < |actions| && RefusesReport(cfg, History(cfg, actions[..j]), actions[j])
  }

  predicate Crashed(cfg: Config, actions: seq<Action>) {
    exists j | 0 <= j < |actions| :: CrashedAt(cfg, actions, j)
  }

  predicate Refused(cfg: Config, actions: seq<Action>) {
    exists j | 0 <= j < |actions| :: RefusedAt(cfg, actions, j)
  }

  lemma LossesGrow(cfg: Config, front: seq<Action>, a: Action)
    ensures Crashed(cfg, front + [a]) <==> Crashed(cfg, front) || CrashesReport(History(cfg, front), a)
    ensures Refused(cfg, front + [a]) <==> Refused(cfg, front) || RefusesReport(cfg, History(cfg, front), a)
  {
    hide History, CrashesReport, RefusesReport;
    var all, n := front + [a], |front|;
    assert all[..n] == front;
    forall j | 0 <= j < n
      ensures CrashedAt(cfg, all, j) <==> CrashedAt(cfg, front, j)
      ensures RefusedAt(cfg, all, j) <==> RefusedAt(cfg, front, j)
    {
      assert all[..j] == front[..j];
    }
    assert CrashedAt(cfg, all, n) <==> CrashesReport(History(cfg, front), a);
    assert RefusedAt(cfg, all, n) <==> RefusesReport(cfg, History(cfg, front), a);
  }

  /** The last save finished the run, and a runner made it. */
  predicate FinishedByRunner(log: seq<Entry>) {
    log != [] && Terminal(log[|log| - 1].after.state) && !log[|log| - 1].cause.Commanded?
  }

  /** Where the report of a finished run is: still to be made, made, or lost in one of two ways. */
  predicate Fate(cfg: Config, s: System, crashed: bool, refused: bool) {
    if !FinishedByRunner(s.log) then !crashed && !refused
    else
      var last := s.log[|s.log| - 1];
      && last.pid in s.processes
      && if s.processes[last.pid].Reporting? then s.reports == [] && !crashed && !refused
         else
           && s.processes[last.pid].Ended?
           && (crashed || refused <==> s.reports == [])
           && !(crashed && refused)
           && (refused ==> !Fits(cfg.rules, last.after))
  }

  lemma ReporterIsLast(cfg: Config, id: string, s: System, pid: nat)
    requires Inv(cfg, id, s) && Reports(s, pid)
    ensures FinishedByRunner(s.log) && s.log[|s.log| - 1].pid == pid && s.log[|s.log| - 1].after == s.processes[pid].run
    ensures s.reports == []
  {
    hide LogOk, RequestsOk, ReportsOk, FirstSave, NextSave;
    assert ProcessOk(cfg, id, s, pid);
  }

  lemma CommitFate(cfg: Config, id: string, s: System, pid: nat, crashed: bool, refused: bool)
    requires Inv(cfg, id, s) && Fate(cfg, s, crashed, refused)
    ensures Fate(cfg, ActCommit(s, pid), crashed, refused)
  {
    hide LogOk, RequestsOk, ReportsOk, FirstSave, NextSave, ProcessesOk, Storable, Matches, WorkItemOk, Fits;
    if pid in s.processes && s.processes[pid].Saving? && s.stored == s.processes[pid].expected {
      SwapExtendsLog(cfg, id, s, pid);
      UnfinishedIsUnreported(cfg, id, s);
      SaverFacts(cfg, id, s, pid);
    }
  }

  lemma SaverFacts(cfg: Config, id: string, s: System, pid: nat)
    requires Inv(cfg, id, s) && pid in s.processes && s.processes[pid].Saving?
    ensures s.processes[pid].cause.Ingested? ==> !Terminal(s.processes[pid].updated.state)
  {
    hide LogOk, RequestsOk, ReportsOk, FirstSave, NextSave, Storable, Matches, WorkItemOk;
    assert ProcessOk(cfg, id, s, pid);
    var Saving(cause, expected, updated) := s.processes[pid];
    SavedFacts(cfg, id, cause, expected, updated);
  }

  lemma NotifyFate(cfg: Config, id: string, s: System, pid: nat, crashed: bool, refused: bool)
    requires PrintableIsPlain(cfg.rules) && Inv(cfg, id, s) && Fate(cfg, s, crashed, refused)
    ensures Fate(cfg, ActNotify(cfg, s, pid), crashed, refused || RefusesReport(cfg, s, Notify(pid)))
  {
    hide LogOk, RequestsOk, ReportsOk, ProcessesOk, NoticeOf, Fits, PrintableIsPlain;
    if Reports(s, pid) {
      ReporterIsLast(cfg, id, s, pid);
      NoticeIsBuilt(cfg, id, s.log);
    }
  }

  lemma CrashFate(cfg: Config, id: string, s: System, pid: nat, crashed: bool, refused: bool)
    requires Inv(cfg, id, s) && Fate(cfg, s, crashed, refused)
    ensures Fate(cfg, ActCrash(s, pid), crashed || CrashesReport(s, Crash(pid)), refused)
  {
    hide LogOk, RequestsOk, ReportsOk, ProcessesOk, Fits;
    if Reports(s, pid) {
      ReporterIsLast(cfg, id, s, pid);
    }
  }

  lemma ActFate(cfg: Config, id: string, s: System, a: Action, crashed: bool, refused: bool)
    requires PrintableIsPlain(cfg.rules) && Inv(cfg, id, s) && Fate(cfg, s, crashed, refused)
    ensures Fate(cfg, Act(cfg, s, a), crashed || CrashesReport(s, a), refused || RefusesReport(cfg, s, a))
  {
    hide Inv, ActCommit, ActNotify, ActCrash, PrintableIsPlain, Fits, StartProcess, Advance, TransitionTo, IssuedRequests;
    match a
    case Commit(pid) => CommitFate(cfg, id, s, pid, crashed, refused);
    case Notify(pid) => NotifyFate(cfg, id, s, pid, crashed, refused);
    case Crash(pid) => CrashFate(cfg, id, s, pid, crashed, refused);
    case _ =>
  }

  lemma NothingIsLost(cfg: Config)
    ensures Fate(cfg, History(cfg, []), Crashed(cfg, []), Refused(cfg, []))
  {
  }

  lemma {:induction false} HistoryFate(cfg: Config, id: string, actions: seq<Action>)
    requires PrintableIsPlain(cfg.rules) && ActionsOk(cfg, id, actions)
    ensures Fate(cfg, History(cfg, actions), Crashed(cfg, actions), Refused(cfg, actions))
    decreases |actions|
  {
    hide ActionOk, Act, Inv, Fate, Crashed, Refused, PrintableIsPlain, CrashesReport, RefusesReport;
    if actions == [] {
      NothingIsLost(cfg);
    } else {
      var front, a := actions[..|actions| - 1], actions[|actions| - 1];
      HistoryFate(cfg, id, front);
      HistoryKeeps(cfg, id, front);
      ActFate(cfg, id, History(cfg, front), a, Crashed(cfg, front), Refused(cfg, front));
      LossesGrow(cfg, front, a);
      assert front + [a] == actions;
    }
  }

  lemma NobodyElseReports(cfg: Config, id: string, s: System)
    requires Inv(cfg, id, s)
    ensures forall pid | pid in s.processes && s.processes[pid].Reporting? ::
              FinishedByRunner(s.log) && s.log[|s.log| - 1].pid == pid
    ensures s.reports != [] ==> FinishedByRunner(s.log)
  {
    hide LogOk, ProcessesOk, RequestsOk, NoticeOf;
    forall pid | pid in s.processes && s.processes[pid].Reporting?
      ensures FinishedByRunner(s.log) && s.log[|s.log| - 1].pid == pid
    {
      ReporterIsLast(cfg, id, s, pid);
    }
  }

  /**
   Exactly when a finished run is never reported: a command finished it; or the process that
   finished it died between its save and its report; or it came to report and the update could
   not be built. The last happens only to a run whose keys or Draft PR URL do not fit.
   */
  lemma WhenReportIsLost(cfg: Config, id: string, actions: seq<Action>)
    requires PrintableIsPlain(cfg.rules) && ActionsOk(cfg, id, actions)
    ensures
      var s := History(cfg, actions);
      s.log != [] && Terminal(s.log[|s.log| - 1].after.state) ==>
        var last := s.log[|s.log| - 1];
        && s.stored == Some(last.after)
        && (ReportLost(s) <==> last.cause.Commanded? || Crashed(cfg, actions) || Refused(cfg, actions))
        && (Refused(cfg, actions) ==> !Fits(cfg.rules, last.after))
  {
    hide LogOk, ProcessesOk, ReportsOk, RequestsOk, History, Crashed, Refused, PrintableIsPlain, ActionOk, Fits;
    HistoryKeeps(cfg, id, actions);
    HistoryFate(cfg, id, actions);
    NobodyElseReports(cfg, id, History(cfg, actions));
  }

  /**
   Without a crash, a run that a runner finished has been reported exactly when its keys and its
   Draft PR URL fit; or its process is about to report, and then does so exactly when they fit.
   */
  lemma ReportedWithoutCrash(cfg: Config, id: string, actions: seq<Action>)
    requires PrintableIsPlain(cfg.rules) && ActionsOk(cfg, id, actions)
    requires forall a | a in actions :: !a.Crash?
    requires FinishedByRunner(History(cfg, actions).log)
    ensures
      var s := History(cfg, actions);
      var last := s.log[|s.log| - 1];
      if last.pid in s.processes && s.processes[last.pid] == Reporting(last.after)
      then s.reports == [] && (|Act(cfg, s, Notify(last.pid)).reports| == 1 <==> Fits(cfg.rules, last.after))
      else |s.reports| == 1 <==> Fits(cfg.rules, last.after)
  {
    hide LogOk, ProcessesOk, RequestsOk, History, PrintableIsPlain, ActionOk, Fits, NoticeOf, Crashed, Refused;
    var s := History(cfg, actions);
    HistoryKeeps(cfg, id, actions);
    HistoryFate(cfg, id, actions);
    NoticeIsBuilt(cfg, id, s.log);
    NoCrash(cfg, actions);
    var last := s.log[|s.log| - 1];
    if s.processes[last.pid].Reporting? {
      ReporterIsLast(cfg, id, s, last.pid);
    }
  }

  lemma NoCrash(cfg: Config, actions: seq<Action>)
    requires forall a | a in actions :: !a.Crash?
    ensures !Crashed(cfg, actions)
  {
    hide History;
  }

  // ---------------------------------------------------------------- a lost report stays lost

  lemma ActKeepsLoss(cfg: Config, id: string, s: System, a: Action)
    requires Inv(cfg, id, s) && ReportLost(s)
    ensures ReportLost(Act(cfg, s, a))
  {
    hide Storable, LogOk, RequestsOk, Advance, TransitionTo, TimedTransition, Accepted, Matches;
    if a.Commit? && a.pid in s.processes {
      assert ProcessOk(cfg, id, s, a.pid);
      assert s.log != [];
    }
  }

  /** A lost report is never made up for, whatever is started, resumed or commanded afterwards. */
  lemma {:induction false} LostReportStaysLost(cfg: Config, id: string, actions: seq<Action>, later: seq<Action>)
    requires ActionsOk(cfg, id, actions + later) && ReportLost(History(cfg, actions))
    ensures ReportLost(History(cfg, actions + later))
    decreases |later|
  {
    hide ActionOk, Act, ReportLost, Inv;
    var all := actions + later;
    if later == [] {
      assert all == actions;
    } else {
      var front := later[..|later| - 1];
      assert all[..|all| - 1] == actions + front;
      assert forall a | a in actions + front :: a in all;
      LostReportStaysLost(cfg, id, actions, front);
      HistoryKeeps(cfg, id, actions + front);
      ActKeepsLoss(cfg, id, History(cfg, actions + front), all[|all| - 1]);
    }
  }
}
