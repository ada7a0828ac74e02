/**
 The orchestrator as it is written: a loop that reassigns the current run, with every stage
 writing the checkpoint store. One invocation is proved against the function `Invoke`, and
 every invocation against a store that only it writes is one of the histories of `RunHistories`.
 */
module WorkflowRunner {
  import opened Wrappers
  import opened Text
  import opened WorkRuns
  import opened CheckpointValidation
  import opened WorkItems
  import opened Stages = WorkflowStages
  import opened StageTimes
  import opened OutcomeReports
  import opened RunHistories
  import opened JsonValues
  import opened CheckpointStore
  import opened ReadableRuns

  // ---------------------------------------------------------------- what one invocation does

  ghost predicate AnswersOk(rules: Rules, respond: nat -> Response) {
    forall pass: nat :: ResponseOk(rules, respond(pass))
  }

  /** The checkpoints saved, in order, and how the loop ends. */
  datatype Journey = Journey(saves: seq<WorkRun>, end: Result<WorkRun, Fault>)

  /**
   The loop from `run` on, its passes answered by `respond(pass)`, `respond(pass + 1)`, …, with
   no other writer. `readable` says that the store reads its file back as `run`; when it does
   not, the compare-and-swap of the first save fails.
   */
  ghost function Continue(
    cfg: Config, item: WorkItem, run: WorkRun, pass: nat, respond: nat -> Response, readable: bool): Journey
    requires Sound(cfg, run) && AnswersOk(cfg.rules, respond)
    decreases SavesLeft(cfg, run)
  {
    if Terminal(run.state) then Journey([], Ok(run))
    else
      match Advance(cfg, item, run, respond(pass))
      case Err(fault) => Journey([], Err(fault))
      case Ok(next) =>
        if !readable then Journey([], Err(StoreFault))
        else
          PassSpends(cfg, item, run, respond(pass));
          var rest := Continue(cfg, item, next, pass + 1, respond, DistinctDetails(next.events));
          Journey([next] + rest.saves, rest.end)
  }

  /** One pass of the loop. */
  lemma ContinueUnfolds(
    cfg: Config, item: WorkItem, run: WorkRun, pass: nat, respond: nat -> Response, readable: bool)
    requires Sound(cfg, run) && AnswersOk(cfg.rules, respond)
    ensures
      var journey := Continue(cfg, item, run, pass, respond, readable);
      if Terminal(run.state) then journey == Journey([], Ok(run))
      else
        match Advance(cfg, item, run, respond(pass))
        case Err(fault) => journey == Journey([], Err(fault))
        case Ok(next) =>
          if !readable then journey == Journey([], Err(StoreFault))
          else
            && Sound(cfg, next)
            && var rest := Continue(cfg, item, next, pass + 1, respond, DistinctDetails(next.events));
               journey == Journey([next] + rest.saves, rest.end)
  {
    hide Valid, Accepted, Advance, ResponseOk, DistinctDetails, SavesLeft;
    assert ResponseOk(cfg.rules, respond(pass));
    if !Terminal(run.state) && Advance(cfg, item, run, respond(pass)).Ok? {
      PassSpends(cfg, item, run, respond(pass));
    }
  }

  lemma PassSpends(cfg: Config, item: WorkItem, run: WorkRun, r: Response)
    requires Sound(cfg, run) && ResponseOk(cfg.rules, r) && Advance(cfg, item, run, r).Ok?
    ensures
      var next := Advance(cfg, item, run, r).value;
      && Sound(cfg, next) && next.runId == run.runId
      && SavesLeft(cfg, next) < SavesLeft(cfg, run)
      && (next.state.Remediating? ==> RemediationCount(run) < cfg.maxCycles)
      && Allowed(run.state, next.state)
      && RemediationCount(next) == RemediationCount(run) + if next.state.Remediating? then 1 else 0
  {
    hide Valid, Accepted, Clean, Advance, ResponseOk, SavesLeft, EvidenceThen, RemediationCount, Allowed;
    AdvanceProgress(cfg, item, run, r);
    ProgressSpends(cfg, run, Advance(cfg, item, run, r).value);
  }

  /** `None` for an item or a readiness result that its port failed to give. */
  datatype Inputs = Inputs(
    approved: WorkRun,
    item: Option<WorkItem>,
    readiness: Option<Readiness>,
    times: seq<Reading>,
    respond: nat -> Response,
    delivered: bool)

  ghost predicate InputsOk(cfg: Config, inputs: Inputs) {
    Built(cfg.rules, inputs.approved) && AnswersOk(cfg.rules, inputs.respond)
  }

  datatype Invocation = Invocation(saves: seq<WorkRun>, notices: seq<Notice>, end: Result<WorkRun, Fault>)

  /** What is sent about a run: nothing either when its update cannot be built. */
  function NoticesOf(rules: Rules, run: WorkRun): seq<Notice> {
    match NoticeOf(rules, run)
    case Ok(Some(notice)) => [notice]
    case _ => []
  }

  /** A report whose update cannot be built raises before anything is sent; one not delivered, after. */
  function ReportEnd(rules: Rules, run: WorkRun, delivered: bool): Result<WorkRun, Fault> {
    match NoticeOf(rules, run)
    case Err(fault) => Err(fault)
    case Ok(None) => Ok(run)
    case Ok(Some(_)) => if delivered then Ok(run) else Err(PortFault)
  }

  /** A finished journey is reported. */
  function Reported(rules: Rules, journey: Journey, delivered: bool): Invocation {
    match journey.end
    case Err(fault) => Invocation(journey.saves, [], Err(fault))
    case Ok(run) => Invocation(journey.saves, NoticesOf(rules, run), ReportEnd(rules, run, delivered))
  }

  function Raise(fault: Fault): Invocation {
    Invocation([], [], Err(fault))
  }

  predicate Continues(checkpoint: WorkRun, approved: WorkRun)
    requires checkpoint.events != []
  {
    && checkpoint.runId == approved.runId
    && checkpoint.correlation == approved.correlation
    && checkpoint.events[..1] == approved.events
  }

  /** An item that is not ready blocks a run that has no checkpoint yet. */
  function InvokeUnready(
    cfg: Config, loaded: Result<Option<WorkRun>, Fault>, approved: WorkRun, summary: string, times: seq<Reading>,
    delivered: bool): Invocation
    requires approved.events != []
  {
    match loaded
    case Err(fault) => Raise(fault)
    case Ok(Some(checkpoint)) => Invocation([], [], Ok(checkpoint))
    case Ok(None) =>
      match BlockUnready(cfg, approved, summary, times)
      case Err(fault) => Raise(fault)
      case Ok(blocked) => Reported(cfg.rules, Journey([blocked], Ok(blocked)), delivered)
  }

  ghost function Invoke(cfg: Config, loaded: Result<Option<WorkRun>, Fault>, inputs: Inputs): Invocation
    requires InputsOk(cfg, inputs)
    requires loaded.Ok? && loaded.value.Some? ==> Valid(cfg.rules, loaded.value.value)
  {
    var Inputs(approved, item, readiness, times, respond, delivered) := inputs;
    ValidationIsComplete(cfg.rules, approved);
    if !Pristine(approved) then Raise(IntegrityFault)
    else if item.None? then Raise(PortFault)
    else if !Matches(approved, item.value) then Raise(IntegrityFault)
    else if readiness.None? then Raise(PortFault)
    else
      if readiness.value.Unready? then InvokeUnready(cfg, loaded, approved, readiness.value.summary, times, delivered)
      else
        match loaded
        case Err(fault) => Raise(fault)
        case Ok(None) =>
          var rest := Continue(cfg, item.value, approved, 0, respond, true);
          Reported(cfg.rules, Journey([approved] + rest.saves, rest.end), delivered)
        case Ok(Some(checkpoint)) =>
          if !Accepted(checkpoint) || !Continues(checkpoint, approved) then Raise(IntegrityFault)
          else if Terminal(checkpoint.state) then Invocation([], [], Ok(checkpoint))
          else Reported(cfg.rules, Continue(cfg, item.value, checkpoint, 0, respond, true), delivered)
  }

  // ---------------------------------------------------------------- the code

  class WorkManagement {
    var notices: seq<Notice>

    constructor ()
      ensures notices == []
    {
      notices := [];
    }

    method Send(notice: Notice, delivered: bool) returns (r: Result<(), Fault>)
      modifies this
      ensures notices == old(notices) + [notice]
      ensures r == if delivered then Ok(()) else Err(PortFault)
    {
      notices := notices + [notice];
      r := if delivered then Ok(()) else Err(PortFault);
    }
  }

  /** A compare-and-swap of `expected` against what the store holds. */
  function Swapped(loaded: Result<Option<WorkRun>, Fault>, expected: Option<WorkRun>, updated: Result<WorkRun, Fault>)
    : Result<WorkRun, Fault>
  {
    match updated
    case Err(fault) => Err(fault)
    case Ok(run) =>
      match loaded
      case Err(fault) => Err(fault)
      case Ok(current) => if current == expected then Ok(run) else Err(ConflictFault)
  }

  class WorkflowRunner {
    const cfg: Config
    const checkpoints: JsonFileCheckpointStore
    const workManagement: WorkManagement

    constructor (cfg: Config, checkpoints: JsonFileCheckpointStore, workManagement: WorkManagement)
      ensures this.cfg == cfg && this.checkpoints == checkpoints && this.workManagement == workManagement
    {
      this.cfg := cfg;
      this.checkpoints := checkpoints;
      this.workManagement := workManagement;
    }

    /** The runner and its store use the same library functions, which obey their laws. */
    ghost predicate Lawful() {
      && checkpoints.rules == cfg.rules
      && TimesRoundTrip(checkpoints.codec)
      && CaseIsStable(cfg.rules)
    }

    method SaveOver(expected: Option<WorkRun>, updated: WorkRun) returns (r: Result<WorkRun, Fault>)
      modifies checkpoints`files
      ensures r == Swapped(old(checkpoints.Loaded(updated.runId)), expected, Ok(updated))
      ensures checkpoints.files ==
              if r.Ok? then old(checkpoints.files)[updated.runId := Envelope(checkpoints.codec, updated)]
              else old(checkpoints.files)
    {
      hide Envelope, Deserialize;
      var saved := checkpoints.Save(expected, updated);
      if saved.Err? {
        return Err(saved.error);
      }
      return Ok(updated);
    }

    method TransitionFrom(expected: WorkRun, updated: WorkRun, target: State, times: seq<Reading>)
      returns (r: Result<WorkRun, Fault>)
      requires Sound(cfg, updated) && updated.runId == expected.runId
      modifies checkpoints`files
      ensures r == Swapped(
                     old(checkpoints.Loaded(expected.runId)), Some(expected),
                     TimedTransition(cfg, updated, target, times, []))
      ensures r.Ok? ==>
                && times != [] && times[0].Aware? && r.value.state == target
                && r.value.events == updated.events + [Event(
                     |updated.events| + 1, Entered(target), target, Strip(cfg.actorId), times[0].instant, [])]
      ensures checkpoints.files ==
              if r.Ok? then old(checkpoints.files)[expected.runId := Envelope(checkpoints.codec, r.value)]
              else old(checkpoints.files)
    {
      hide Envelope, Deserialize, Valid, Accepted, Clean, RemediationCount, TimedTransition;
      var result := TimedTransition(cfg, updated, target, times, []);
      if result.Err? {
        return result;
      }
      TransitionProgress(cfg, updated, target, times, []);
      TransitionIsStamped(cfg, updated, target, times, []);
      assert TrimDetails([]) == [];
      r := SaveOver(Some(expected), result.value);
    }

    method FailFrom(expected: WorkRun, updated: WorkRun, stage: string, code: string, times: seq<Reading>)
      returns (r: Result<WorkRun, Fault>)
      requires Sound(cfg, updated) && updated.runId == expected.runId
      modifies checkpoints`files
      ensures r == Swapped(
                     old(checkpoints.Loaded(expected.runId)), Some(expected),
                     Stages.FailFrom(cfg, updated, stage, code, times))
      ensures r.Ok? ==>
                && times != [] && times[0].Aware? && r.value.state.Failed?
                && r.value.events == updated.events + [Event(
                     |updated.events| + 1, Entered(Failed), Failed, Strip(cfg.actorId), times[0].instant,
                     TrimDetails([("failure_code", code), ("stage", stage)]))]
      ensures checkpoints.files ==
              if r.Ok? then old(checkpoints.files)[expected.runId := Envelope(checkpoints.codec, r.value)]
              else old(checkpoints.files)
    {
      hide Envelope, Deserialize, Valid, Accepted, Clean, RemediationCount, TimedTransition;
      var result := Stages.FailFrom(cfg, updated, stage, code, times);
      if result.Err? {
        return result;
      }
      TransitionProgress(cfg, updated, Failed, times, [("failure_code", code), ("stage", stage)]);
      TransitionIsStamped(cfg, updated, Failed, times, [("failure_code", code), ("stage", stage)]);
      r := SaveOver(Some(expected), result.value);
    }

    /** Attaches one by one, reading the clock each time; `rest` are the readings left. */
    method AttachAll(run: WorkRun, artifacts: seq<Artifact>, times: seq<Reading>)
      returns (r: Result<WorkRun, Fault>, rest: seq<Reading>)
      requires run.events != []
      ensures (r, rest) == Stages.AttachAll(cfg, run, artifacts, times)
    {
      hide MakeEvent, Invariant;
      var updated := run;
      rest := times;
      var k := 0;
      while k < |artifacts|
        invariant 0 <= k <= |artifacts| && updated.events != []
        invariant Stages.AttachAll(cfg, run, artifacts, times) == Stages.AttachAll(cfg, updated, artifacts[k..], rest)
      {
        var next := TimedAttach(cfg, updated, artifacts[k], rest);
        rest := Rest(rest);
        if next.Err? {
          return next, rest;
        }
        assert artifacts[k..][1..] == artifacts[k + 1..];
        updated := next.value;
        k := k + 1;
      }
      r := Ok(updated);
    }

    method Execute(item: WorkItem, run: WorkRun, response: Response) returns (r: Result<WorkRun, Fault>)
      requires Sound(cfg, run)
      modifies checkpoints`files
      ensures r == Swapped(
                     old(checkpoints.Loaded(run.runId)), Some(run), Stages.Execute(cfg, item, run, response))
      ensures checkpoints.files ==
              if r.Ok? then old(checkpoints.files)[run.runId := Envelope(checkpoints.codec, r.value)]
              else old(checkpoints.files)
    {
      hide Envelope, Deserialize, Valid, Accepted, TransitionTo, Clean, RequestOk, EvidenceAt;
      var request := StageRequest(cfg, item, run);
      if request.Err? {
        return Err(request.error);
      }
      if response.policy.None? {
        return Err(PortFault);
      }
      if !response.policy.value.allowed {
        var details := [("failure_code", "policy_denied"), ("summary", response.policy.value.reason)];
        var blocked := TimedTransition(cfg, run, Blocked, response.times, details);
        if blocked.Err? {
          return blocked;
        }
        TransitionProgress(cfg, run, Blocked, response.times, details);
        r := SaveOver(Some(run), blocked.value);
        return;
      }
      if response.execution.None? {
        r := FailFrom(run, run, "execution", "operation_failed", response.times);
        return;
      }
      var execution := response.execution.value;
      var artifacts := ToArtifacts(cfg.rules, request.value.executionId, execution.files);
      if artifacts.Err? {
        r := FailFrom(run, run, "execution", "operation_failed", response.times);
        return;
      }
      ToArtifactsOk(cfg.rules, request.value.executionId, execution.files);
      var attached, rest := AttachAll(run, artifacts.value, response.times);
      if attached.Err? {
        r := FailFrom(run, run, "execution", "operation_failed", rest);
        return;
      }
      AttachAllEffect(cfg, run, artifacts.value, response.times);
      if !execution.outcome.OutcomeCompleted? {
        r := FailFrom(run, attached.value, "execution", "execution_" + OutcomeText(execution.outcome), rest);
      } else {
        r := TransitionFrom(run, attached.value, Verifying, rest);
      }
    }

    method Verify(run: WorkRun, response: Response) returns (r: Result<WorkRun, Fault>)
      requires Sound(cfg, run) && ResponseOk(cfg.rules, response)
      modifies checkpoints`files
      ensures r == Swapped(old(checkpoints.Loaded(run.runId)), Some(run), Stages.Verify(cfg, run, response))
      ensures checkpoints.files ==
              if r.Ok? then old(checkpoints.files)[run.runId := Envelope(checkpoints.codec, r.value)]
              else old(checkpoints.files)
    {
      hide Envelope, Deserialize, Valid, Accepted, TransitionTo, Clean, RemediationCount, EvidenceAt;
      var attempt := 1 + RemediationCount(run);
      if response.verification.None? {
        r := FailFrom(run, run, "verification", "operation_failed", response.times);
        return;
      }
      var verdict := response.verification.value;
      var attached, rest := AttachAll(run, verdict.artifacts, response.times);
      if attached.Err? {
        r := FailFrom(run, run, "verification", "operation_failed", rest);
        return;
      }
      AttachAllEffect(cfg, run, verdict.artifacts, response.times);
      if verdict.passed {
        r := TransitionFrom(run, attached.value, PublishingDraftPr, rest);
      } else if attempt > cfg.maxCycles {
        r := FailFrom(run, attached.value, "verification", "remediation_limit_reached", rest);
      } else {
        r := TransitionFrom(run, attached.value, Remediating, rest);
      }
    }

    method Remediate(run: WorkRun, response: Response) returns (r: Result<WorkRun, Fault>)
      requires Sound(cfg, run) && ResponseOk(cfg.rules, response)
      modifies checkpoints`files
      ensures r == Swapped(old(checkpoints.Loaded(run.runId)), Some(run), Stages.Remediate(cfg, run, response))
      ensures checkpoints.files ==
              if r.Ok? then old(checkpoints.files)[run.runId := Envelope(checkpoints.codec, r.value)]
              else old(checkpoints.files)
    {
      hide Envelope, Deserialize, Valid, Accepted, TransitionTo, Clean, RemediationCount, EvidenceAt;
      if response.remediation.None? {
        r := FailFrom(run, run, "remediation", "operation_failed", response.times);
        return;
      }
      var attached, rest := AttachAll(run, response.remediation.value, response.times);
      if attached.Err? {
        r := FailFrom(run, run, "remediation", "operation_failed", rest);
        return;
      }
      AttachAllEffect(cfg, run, response.remediation.value, response.times);
      r := TransitionFrom(run, attached.value, Verifying, rest);
    }

    method Publish(run: WorkRun, response: Response) returns (r: Result<WorkRun, Fault>)
      requires Sound(cfg, run)
      modifies checkpoints`files
      ensures r == Swapped(old(checkpoints.Loaded(run.runId)), Some(run), Stages.Publish(cfg, run, response))
      ensures checkpoints.files ==
              if r.Ok? then old(checkpoints.files)[run.runId := Envelope(checkpoints.codec, r.value)]
              else old(checkpoints.files)
    {
      hide Envelope, Deserialize, Valid, Accepted, TransitionTo, Clean, RemediationCount;
      if response.publication.None? {
        r := FailFrom(run, run, "draft_pr_publication", "operation_failed", response.times);
        return;
      }
      var recorded := TimedRecord(cfg, run, response.publication.value, response.times);
      if recorded.Err? {
        r := FailFrom(run, run, "draft_pr_publication", "operation_failed", Rest(response.times));
        return;
      }
      RecordEffect(cfg.rules, run, response.publication.value, cfg.actorId, response.times[0]);
      RecordKeeps(cfg.rules, run, response.publication.value, cfg.actorId, response.times[0]);
      r := TransitionFrom(run, recorded.value, Completed, Rest(response.times));
    }

    /** One pass of the loop: the stage of the present state. */
    method Pass(item: WorkItem, run: WorkRun, response: Response) returns (r: Result<WorkRun, Fault>)
      requires Sound(cfg, run) && ResponseOk(cfg.rules, response) && !Terminal(run.state)
      modifies checkpoints`files
      ensures r == Swapped(old(checkpoints.Loaded(run.runId)), Some(run), Advance(cfg, item, run, response))
      ensures checkpoints.files ==
              if r.Ok? then old(checkpoints.files)[run.runId := Envelope(checkpoints.codec, r.value)]
              else old(checkpoints.files)
    {
      hide Envelope, Deserialize, Sound, ResponseOk, Stages.Execute, Stages.Verify, Stages.Publish, TimedTransition;
      match run.state
      case Approved => r := TransitionFrom(run, run, Executing, response.times);
      case Executing => r := Execute(item, run, response);
      case Verifying => r := Verify(run, response);
      case Remediating => r := Remediate(run, response);
      case PublishingDraftPr => r := Publish(run, response);
      case _ => assert false;
    }

    /** `_ingest`: save the approved input once, or resume its trusted checkpoint. */
    method Ingest(approved: WorkRun) returns (r: Result<WorkRun, Fault>)
      requires Built(cfg.rules, approved)
      modifies checkpoints`files
      ensures r == match old(checkpoints.Loaded(approved.runId))
                   case Err(fault) => Err(fault)
                   case Ok(None) => Ok(approved)
                   case Ok(Some(checkpoint)) =>
                     if checkpoint.events != [] && Accepted(checkpoint) && Continues(checkpoint, approved)
                     then Ok(checkpoint) else Err(IntegrityFault)
      ensures checkpoints.files ==
              if old(checkpoints.Loaded(approved.runId)) == Ok(None)
              then old(checkpoints.files)[approved.runId := Envelope(checkpoints.codec, approved)]
              else old(checkpoints.files)
    {
      hide Envelope, Deserialize, Valid, Accepted, CanonicalNames;
      var loaded := checkpoints.Load(approved.runId);
      if loaded.Err? {
        return Err(loaded.error);
      }
      if loaded.value.None? {
        r := SaveOver(None, approved);
        return;
      }
      var checkpoint := loaded.value.value;
      LoadedHasEvents(checkpoints.rules, checkpoint);
      var checked := ValidateCheckpoint(checkpoint);
      if checked.Err? || !Continues(checkpoint, approved) {
        return Err(IntegrityFault);
      }
      return Ok(checkpoint);
    }

    method ReportOutcome(run: WorkRun, delivered: bool) returns (r: Result<WorkRun, Fault>)
      modifies workManagement
      ensures workManagement.notices == old(workManagement.notices) + NoticesOf(cfg.rules, run)
      ensures r == ReportEnd(cfg.rules, run, delivered)
    {
      var notice := NoticeOf(cfg.rules, run);
      if notice.Err? {
        return Err(notice.error);
      }
      if notice.value.Some? {
        var sent := workManagement.Send(notice.value.value, delivered);
        if sent.Err? {
          return Err(PortFault);
        }
      }
      return Ok(run);
    }

    /** The file of the last save, if there was one. */
    function Written(files: map<string, Json>, runId: string, saves: seq<WorkRun>): map<string, Json> {
      if saves == [] then files else files[runId := Envelope(checkpoints.codec, saves[|saves| - 1])]
    }

    /** The loop of `run`, from a checkpoint that the store holds. */
    method Loop(item: WorkItem, start: WorkRun, respond: nat -> Response)
      returns (r: Result<WorkRun, Fault>, ghost journey: Journey)
      requires Lawful() && Sound(cfg, start) && CanonicalNames(start.events) && AnswersOk(cfg.rules, respond)
      requires checkpoints.Loaded(start.runId) == Ok(Some(start))
      modifies checkpoints`files
      ensures journey == Continue(cfg, item, start, 0, respond, true) && r == journey.end
      ensures checkpoints.files == Written(old(checkpoints.files), start.runId, journey.saves)
    {
      hide Envelope, Deserialize, Valid, Accepted, Advance, ResponseOk, CanonicalNames, DistinctDetails, SavesLeft;
      hide TimesRoundTrip, CaseIsStable, Continue, Clean, RemediationCount;
      var current := start;
      var pass := 0;
      ghost var saves: seq<WorkRun> := [];
      ghost var readable := true;
      while !Terminal(current.state)
        invariant Sound(cfg, current) && CanonicalNames(current.events) && current.runId == start.runId
        invariant SafeFilename(start.runId)
        invariant checkpoints.Loaded(start.runId) == if readable then Ok(Some(current)) else Err(StoreFault)
        invariant checkpoints.files == Written(old(checkpoints.files), start.runId, saves)
        invariant Continue(cfg, item, start, 0, respond, true)
                  == (var rest := Continue(cfg, item, current, pass, respond, readable);
                      Journey(saves + rest.saves, rest.end))
        decreases SavesLeft(cfg, current)
      {
        assert ResponseOk(cfg.rules, respond(pass));
        ContinueUnfolds(cfg, item, current, pass, respond, readable);
        r := Pass(item, current, respond(pass));
        if r.Err? {
          return r, Journey(saves, r);
        }
        PassSpends(cfg, item, current, respond(pass));
        AdvanceReadable(cfg, item, current, respond(pass));
        current := r.value;
        checkpoints.Reads(current);
        readable := DistinctDetails(current.events);
        saves := saves + [current];
        pass := pass + 1;
      }
      ContinueUnfolds(cfg, item, current, pass, respond, readable);
      r := Ok(current);
      journey := Journey(saves, r);
    }

    /**
     `run`: one invocation, from the checks of the input to the report. Its result, the
     notices it sends and the file it leaves behind are those of `Invoke`.
     */
    method Run(inputs: Inputs) returns (r: Result<WorkRun, Fault>)
      requires Lawful() && InputsOk(cfg, inputs)
      modifies checkpoints`files, workManagement
      ensures var invocation := Invoke(cfg, old(checkpoints.Loaded(inputs.approved.runId)), inputs);
              && r == invocation.end
              && workManagement.notices == old(workManagement.notices) + invocation.notices
              && checkpoints.files == Written(old(checkpoints.files), inputs.approved.runId, invocation.saves)
    {
      hide Envelope, Deserialize, Valid, Accepted, CanonicalNames, DistinctDetails, Built, SavesLeft, Advance, Clean;
      hide TimesRoundTrip, CaseIsStable, AnswersOk, Continue, InvokeUnready, NoticesOf, ReportEnd, RemediationCount;
      hide Matches;
      var approved := inputs.approved;
      ValidationIsComplete(cfg.rules, approved);
      if !Pristine(approved) {
        return Err(IntegrityFault);
      }
      if inputs.item.None? {
        return Err(PortFault);
      }
      var item := inputs.item.value;
      if !Matches(approved, item) {
        return Err(IntegrityFault);
      }
      if inputs.readiness.None? {
        return Err(PortFault);
      }
      if inputs.readiness.value.Unready? {
        r := BlockOnUnready(approved, inputs.readiness.value.summary, inputs.times, inputs.delivered);
        return;
      }
      PristineIsReadable(approved);
      ghost var loaded := checkpoints.Loaded(approved.runId);
      if loaded.Ok? && loaded.value.Some? {
        LoadedHasEvents(cfg.rules, loaded.value.value);
      }
      r := Ingest(approved);
      if r.Err? {
        return;
      }
      var current := r.value;
      if Terminal(current.state) {
        return;
      }
      if loaded == Ok(None) {
        checkpoints.Reads(approved);
      }
      ghost var journey;
      r, journey := Loop(item, current, inputs.respond);
      if r.Ok? {
        r := ReportOutcome(r.value, inputs.delivered);
      }
    }

    method BlockOnUnready(approved: WorkRun, summary: string, times: seq<Reading>, delivered: bool)
      returns (r: Result<WorkRun, Fault>)
      requires Sound(cfg, approved)
      modifies checkpoints`files, workManagement
      ensures var invocation := InvokeUnready(
                cfg, old(checkpoints.Loaded(approved.runId)), approved, summary, times, delivered);
              && r == invocation.end
              && workManagement.notices == old(workManagement.notices) + invocation.notices
              && checkpoints.files == Written(old(checkpoints.files), approved.runId, invocation.saves)
    {
      hide Envelope, Deserialize, Valid, Accepted, CanonicalNames, Clean, TimedTransition, RemediationCount, NoticesOf, ReportEnd;
      var loaded := checkpoints.Load(approved.runId);
      if loaded.Err? {
        return Err(loaded.error);
      }
      if loaded.value.Some? {
        return Ok(loaded.value.value);
      }
      var blocked := BlockUnready(cfg, approved, summary, times);
      if blocked.Err? {
        return blocked;
      }
      TransitionProgress(
        cfg, approved, Blocked, times, [("failure_code", "work_item_not_ready"), ("summary", summary)]);
      r := SaveOver(None, blocked.value);
      r := ReportOutcome(blocked.value, delivered);
    }
  }

  lemma LoadedHasEvents(rules: Rules, run: WorkRun)
    requires Valid(rules, run)
    ensures run.events != []
  {
  }
}
