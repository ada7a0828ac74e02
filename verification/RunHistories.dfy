/**
 Whole histories of one work run: any number of runner invocations and command-line writers
 share one compare-and-swap checkpoint, interleave at every external call, and may crash at
 any point, in particular between an external call and the save that follows it.
 */
module RunHistories {
  import opened Wrappers
  import opened Text
  import opened WorkRuns
  import opened CheckpointValidation
  import opened WorkItems
  import opened WorkflowStages
  import opened OutcomeReports

  // ---------------------------------------------------------------- the system

  /** Why a checkpoint was saved. */
  datatype Cause =
    | Ingested(item: WorkItem)
    | NotReady(approved: WorkRun, summary: string, times: seq<Reading>)
    | Stage(item: WorkItem, response: Response)
    | Commanded(target: State, actor: string, at: Reading)

  datatype Entry = Entry(pid: nat, cause: Cause, before: Option<WorkRun>, after: WorkRun)

  datatype Process =
    | Looping(item: WorkItem, current: WorkRun)
    | Saving(cause: Cause, expected: Option<WorkRun>, updated: WorkRun)
    | Reporting(run: WorkRun)
    | Ended

  /** What was sent to the work-management provider at the end of an invocation. */
  datatype Report = Report(pid: nat, run: WorkRun, notice: Notice)

  /** An execution that was started, with the work item that the invocation had read. */
  datatype Issued = Issued(item: WorkItem, request: ExecutionRequest)

  /** `log` holds the successful saves, `requests` the executions started. */
  datatype System = System(
    stored: Option<WorkRun>,
    log: seq<Entry>,
    processes: map<nat, Process>,
    reports: seq<Report>,
    requests: seq<Issued>)

  datatype Readiness = Ready | Unready(summary: string)

  datatype Action =
    | Start(pid: nat, approved: WorkRun, item: WorkItem, readiness: Readiness, times: seq<Reading>)
    | Compute(pid: nat, response: Response)
    | Commit(pid: nat)
    | Notify(pid: nat)
    | Crash(pid: nat)
    | Command(pid: nat, target: State, actor: string, at: Reading)

  predicate Pristine(run: WorkRun) {
    run.state.Approved? && |run.events| == 1 && run.artifacts == [] && run.draftPrUrl.None?
  }

  predicate Matches(run: WorkRun, item: WorkItem) {
    item.revision == run.correlation.revision && item.contentSha256 == run.correlation.contentSha256
  }

  function BlockUnready(cfg: Config, approved: WorkRun, summary: string, times: seq<Reading>): Result<WorkRun, Fault>
    requires approved.events != []
  {
    TimedTransition(cfg, approved, Blocked, times, [("failure_code", "work_item_not_ready"), ("summary", summary)])
  }

  /** An invocation up to its first save or its loop: input checks, readiness, then the load. */
  function StartProcess(
    cfg: Config, stored: Option<WorkRun>, approved: WorkRun, item: WorkItem, readiness: Readiness, times: seq<Reading>)
    : Process
  {
    if !Pristine(approved) || !Matches(approved, item) then Ended
    else
      match (readiness, stored)
      case (Unready(_), Some(_)) => Ended
      case (Unready(summary), None) =>
        (match BlockUnready(cfg, approved, summary, times)
         case Err(_) => Ended
         case Ok(blocked) => Saving(NotReady(approved, summary, times), None, blocked))
      case (Ready, None) => Saving(Ingested(item), None, approved)
      case (Ready, Some(checkpoint)) =>
        if checkpoint.events == [] || !Accepted(checkpoint) then Ended
        else if
          || checkpoint.runId != approved.runId
          || checkpoint.correlation != approved.correlation
          || checkpoint.events[..1] != approved.events
        then Ended
        else if Terminal(checkpoint.state) then Ended
        else Looping(item, checkpoint)
  }

  /** The execution that a pass of the loop starts: only once the policy gate has agreed. */
  function IssuedRequests(cfg: Config, item: WorkItem, run: WorkRun, response: Response): seq<Issued>
    requires run.events != []
  {
    if run.state.Executing? && response.policy.Some? && response.policy.value.allowed then
      match StageRequest(cfg, item, run)
      case Ok(request) => [Issued(item, request)]
      case Err(_) => []
    else []
  }

  function AfterSave(cause: Cause, updated: WorkRun): Process {
    match cause
    case Ingested(item) => Looping(item, updated)
    case NotReady(_, _, _) => Reporting(updated)
    case Stage(item, _) => if Terminal(updated.state) then Reporting(updated) else Looping(item, updated)
    case Commanded(_, _, _) => Ended
  }

  function ActStart(
    cfg: Config, s: System, pid: nat, approved: WorkRun, item: WorkItem, readiness: Readiness, times: seq<Reading>): System
  {
    if pid in s.processes then s
    else s.(processes := s.processes[pid := StartProcess(cfg, s.stored, approved, item, readiness, times)])
  }

  function ActCompute(cfg: Config, s: System, pid: nat, response: Response): System {
    if pid in s.processes && s.processes[pid].Looping? && s.processes[pid].current.events != [] then
      var Looping(item, current) := s.processes[pid];
      var next := match Advance(cfg, item, current, response)
        case Err(_) => Ended
        case Ok(updated) => Saving(Stage(item, response), Some(current), updated);
      s.(processes := s.processes[pid := next], requests := s.requests + IssuedRequests(cfg, item, current, response))
    else s
  }

  /** The compare-and-swap: it takes effect, or the caller gets the conflict exception. */
  function ActCommit(s: System, pid: nat): System {
    if pid in s.processes && s.processes[pid].Saving? then
      var Saving(cause, expected, updated) := s.processes[pid];
      if s.stored == expected then
        s.(
          stored := Some(updated),
          log := s.log + [Entry(pid, cause, expected, updated)],
          processes := s.processes[pid := AfterSave(cause, updated)])
      else s.(processes := s.processes[pid := Ended])
    else s
  }

  /** The report is sent, unless building its update raises: then the invocation ends without it. */
  function ActNotify(cfg: Config, s: System, pid: nat): System {
    if pid in s.processes && s.processes[pid].Reporting? then
      var run := s.processes[pid].run;
      var reports := match NoticeOf(cfg.rules, run)
        case Ok(Some(notice)) => s.reports + [Report(pid, run, notice)]
        case _ => s.reports;
      s.(reports := reports, processes := s.processes[pid := Ended])
    else s
  }

  function ActCrash(s: System, pid: nat): System {
    if pid in s.processes then s.(processes := s.processes[pid := Ended]) else s
  }

  /** The `cancel` and `retry` commands, up to their save. */
  function ActCommand(cfg: Config, s: System, pid: nat, target: State, actor: string, at: Reading): System {
    if pid in s.processes then s
    else
      var process :=
        if s.stored.None? || !(target.Cancelled? || target.Verifying?) then Ended
        else match TransitionTo(cfg.rules, s.stored.value, target, actor, at, [])
          case Err(_) => Ended
          case Ok(updated) => Saving(Commanded(target, actor, at), s.stored, updated);
      s.(processes := s.processes[pid := process])
  }

  function Act(cfg: Config, s: System, a: Action): System {
    match a
    case Start(pid, approved, item, readiness, times) => ActStart(cfg, s, pid, approved, item, readiness, times)
    case Compute(pid, response) => ActCompute(cfg, s, pid, response)
    case Commit(pid) => ActCommit(s, pid)
    case Notify(pid) => ActNotify(cfg, s, pid)
    case Crash(pid) => ActCrash(s, pid)
    case Command(pid, target, actor, at) => ActCommand(cfg, s, pid, target, actor, at)
  }

  const EMPTY := System(None, [], map[], [], [])

  function History(cfg: Config, actions: seq<Action>): System {
    if actions == [] then EMPTY
    else Act(cfg, History(cfg, actions[..|actions| - 1]), actions[|actions| - 1])
  }

  /**
   Callers pass objects that passed their constructors, for the run id under consideration;
   the input of an invocation was made by `Approve`.
   */
  ghost predicate ActionOk(cfg: Config, id: string, a: Action) {
    && (a.Start? ==>
          && Built(cfg.rules, a.approved) && a.approved.runId == id
          && WorkItemOk(cfg.rules, a.item))
    && (a.Compute? ==> ResponseOk(cfg.rules, a.response))
  }

  ghost predicate ActionsOk(cfg: Config, id: string, actions: seq<Action>) {
    forall a | a in actions :: ActionOk(cfg, id, a)
  }

  // ---------------------------------------------------------------- the inductive invariant

  /** A run that may be in the store. */
  ghost predicate Storable(cfg: Config, id: string, run: WorkRun) {
    Sound(cfg, run) && Clean(run) && run.runId == id && RemediationCount(run) <= cfg.maxCycles
  }

  ghost predicate FirstSave(cfg: Config, id: string, cause: Cause, run: WorkRun) {
    && Storable(cfg, id, run)
    && RemediationCount(run) == 0
    && match cause
       case Ingested(item) => Pristine(run) && Matches(run, item) && WorkItemOk(cfg.rules, item)
       case NotReady(approved, summary, times) =>
         && Pristine(approved) && Clean(approved)
         && run.state.Blocked? && BlockUnready(cfg, approved, summary, times) == Ok(run)
       case _ => false
  }

  ghost predicate NextSave(cfg: Config, id: string, cause: Cause, before: WorkRun, after: WorkRun) {
    && Storable(cfg, id, after)
    && Progress(cfg, before, after)
    && match cause
       case Stage(item, response) =>
         && Matches(before, item) && WorkItemOk(cfg.rules, item)
         && ResponseOk(cfg.rules, response)
         && before.events != [] && Advance(cfg, item, before, response) == Ok(after)
       case Commanded(target, actor, at) =>
         && (target.Cancelled? || target.Verifying?)
         && TransitionTo(cfg.rules, before, target, actor, at, []) == Ok(after)
       case _ => false
  }

  ghost predicate EntryOk(cfg: Config, id: string, log: seq<Entry>, i: int)
    requires 0 <= i < |log|
  {
    var e := log[i];
    if i == 0 then e.before == None && FirstSave(cfg, id, e.cause, e.after)
    else e.before == Some(log[i - 1].after) && NextSave(cfg, id, e.cause, log[i - 1].after, e.after)
  }

  ghost predicate LogOk(cfg: Config, id: string, log: seq<Entry>) {
    forall i | 0 <= i < |log| :: EntryOk(cfg, id, log, i)
  }

  predicate SavedAt(log: seq<Entry>, i: int, run: WorkRun) {
    0 <= i < |log| && log[i].after == run
  }

  predicate InLog(log: seq<Entry>, run: WorkRun) {
    exists i | 0 <= i < |log| :: SavedAt(log, i, run)
  }

  /** The last save, made by `pid`, finished the run. */
  predicate FinishedBy(log: seq<Entry>, pid: nat, run: WorkRun) {
    && log != []
    && var last := log[|log| - 1];
       last.pid == pid && last.after == run && Terminal(run.state) && !last.cause.Commanded?
  }

  ghost predicate ProcessOk(cfg: Config, id: string, s: System, pid: nat)
    requires pid in s.processes
  {
    match s.processes[pid]
    case Looping(item, current) =>
      InLog(s.log, current) && !Terminal(current.state) && Matches(current, item) && WorkItemOk(cfg.rules, item)
    case Saving(cause, None, updated) => FirstSave(cfg, id, cause, updated)
    case Saving(cause, Some(before), updated) => InLog(s.log, before) && NextSave(cfg, id, cause, before, updated)
    case Reporting(run) => FinishedBy(s.log, pid, run) && s.reports == []
    case Ended => true
  }

  ghost predicate ProcessesOk(cfg: Config, id: string, s: System) {
    forall pid | pid in s.processes :: ProcessOk(cfg, id, s, pid)
  }

  predicate ReportsOk(cfg: Config, s: System) {
    s.reports != [] ==>
      var r := s.reports[0];
      && |s.reports| == 1
      && FinishedBy(s.log, r.pid, r.run)
      && NoticeOf(cfg.rules, r.run) == Ok(Some(r.notice))
      && r.pid in s.processes && s.processes[r.pid].Ended?
  }

  /** The request that hands an item to the executor, on behalf of a run. */
  function RequestFor(cfg: Config, run: WorkRun, item: WorkItem): ExecutionRequest
    requires run.events != []
  {
    ExecutionRequest(
      run.runId + ":execution:1", run.correlation.issueKey, run.correlation.revision, ContentOf(item),
      run.correlation.contentSha256, run.events[0].actor, cfg.toolNames)
  }

  /** Every execution that was started ran, for the run first saved, content with the approved digest. */
  predicate IssuedOk(cfg: Config, id: string, log: seq<Entry>, x: Issued) {
    && log != [] && log[0].after.events != [] && log[0].after.runId == id
    && WorkItemOk(cfg.rules, x.item)
    && Matches(log[0].after, x.item)
    && x.request == RequestFor(cfg, log[0].after, x.item)
    && cfg.hash(x.request.content) == x.request.contentSha256
  }

  predicate RequestsOk(cfg: Config, id: string, s: System) {
    forall x | x in s.requests :: IssuedOk(cfg, id, s.log, x)
  }

  ghost predicate Inv(cfg: Config, id: string, s: System) {
    && s.stored == (if s.log == [] then None else Some(s.log[|s.log| - 1].after))
    && LogOk(cfg, id, s.log)
    && ProcessesOk(cfg, id, s)
    && ReportsOk(cfg, s)
    && RequestsOk(cfg, id, s)
  }

  // ---------------------------------------------------------------- each action keeps the invariant

  lemma InLogIsStorable(cfg: Config, id: string, log: seq<Entry>, run: WorkRun)
    requires LogOk(cfg, id, log) && InLog(log, run)
    ensures Storable(cfg, id, run)
  {
    var i :| 0 <= i < |log| && SavedAt(log, i, run);
    assert EntryOk(cfg, id, log, i);
  }

  /** Only `pid` changes, and neither the log nor the reports do. */
  lemma ReplaceProcess(cfg: Config, id: string, s: System, pid: nat, process: Process)
    requires Inv(cfg, id, s)
    requires s.reports != [] && s.reports[0].pid == pid ==> process.Ended?
    requires ProcessOk(cfg, id, s.(processes := s.processes[pid := process]), pid)
    ensures Inv(cfg, id, s.(processes := s.processes[pid := process]))
  {
    hide Storable, FirstSave, NextSave, FinishedBy, IssuedOk, NoticeOf, WorkItemOk, Matches;
    var s' := s.(processes := s.processes[pid := process]);
    forall q | q in s'.processes
      ensures ProcessOk(cfg, id, s', q)
    {
      if q != pid {
        assert ProcessOk(cfg, id, s, q);
      }
    }
    assert forall r | r in s.requests :: IssuedOk(cfg, id, s.log, r) ==> IssuedOk(cfg, id, s'.log, r);
  }

  // ---------------------------------------------------------------- starting an invocation

  lemma ApprovedIsStorable(cfg: Config, id: string, run: WorkRun)
    requires Built(cfg.rules, run) && run.runId == id && Pristine(run)
    ensures Storable(cfg, id, run) && RemediationCount(run) == 0
  {
    ValidationIsComplete(cfg.rules, run);
    assert run.events[..0] == [];
    assert run.events[0].name != Entered(Remediating);
    assert Named(run.events, Entered(Remediating)) == [];
  }

  lemma BlockedIsFirstSave(cfg: Config, id: string, approved: WorkRun, summary: string, times: seq<Reading>)
    requires Built(cfg.rules, approved) && approved.runId == id && Pristine(approved)
    requires BlockUnready(cfg, approved, summary, times).Ok?
    ensures
      FirstSave(cfg, id, NotReady(approved, summary, times), BlockUnready(cfg, approved, summary, times).value)
  {
    hide Built, Valid, Accepted, Clean, TransitionTo;
    ApprovedIsStorable(cfg, id, approved);
    var details := [("failure_code", "work_item_not_ready"), ("summary", summary)];
    TransitionProgress(cfg, approved, Blocked, times, details);
  }

  lemma LastIsInLog(log: seq<Entry>)
    requires log != []
    ensures InLog(log, log[|log| - 1].after)
  {
    assert SavedAt(log, |log| - 1, log[|log| - 1].after);
  }

  lemma StartedIsOk(
    cfg: Config, id: string, s: System, pid: nat, approved: WorkRun, item: WorkItem, readiness: Readiness,
    times: seq<Reading>)
    requires Inv(cfg, id, s) && Built(cfg.rules, approved) && approved.runId == id && WorkItemOk(cfg.rules, item)
    ensures
      var process := StartProcess(cfg, s.stored, approved, item, readiness, times);
      ProcessOk(cfg, id, s.(processes := s.processes[pid := process]), pid)
  {
    hide Built, Storable, WorkItemOk, LogOk, ProcessesOk, ReportsOk, RequestsOk, Accepted, BlockUnready;
    if s.log != [] {
      LastIsInLog(s.log);
    }
    if Pristine(approved) && Matches(approved, item) {
      ApprovedIsStorable(cfg, id, approved);
      if readiness.Unready? {
        if BlockUnready(cfg, approved, readiness.summary, times).Ok? {
          BlockedIsFirstSave(cfg, id, approved, readiness.summary, times);
        }
      }
    }
  }

  lemma StartKeeps(
    cfg: Config, id: string, s: System, pid: nat, approved: WorkRun, item: WorkItem, readiness: Readiness,
    times: seq<Reading>)
    requires Inv(cfg, id, s) && Built(cfg.rules, approved) && approved.runId == id && WorkItemOk(cfg.rules, item)
    ensures Inv(cfg, id, ActStart(cfg, s, pid, approved, item, readiness, times))
  {
    hide Built, WorkItemOk, ProcessOk, StartProcess;
    if pid !in s.processes {
      StartedIsOk(cfg, id, s, pid, approved, item, readiness, times);
      ReplaceProcess(cfg, id, s, pid, StartProcess(cfg, s.stored, approved, item, readiness, times));
    }
  }

  // ---------------------------------------------------------------- one pass of the loop

  lemma ComputedIsNextSave(cfg: Config, id: string, item: WorkItem, before: WorkRun, response: Response)
    requires Storable(cfg, id, before) && Matches(before, item) && WorkItemOk(cfg.rules, item)
    requires ResponseOk(cfg.rules, response) && Advance(cfg, item, before, response).Ok?
    ensures NextSave(cfg, id, Stage(item, response), before, Advance(cfg, item, before, response).value)
  {
    hide Valid, Accepted, Clean, Advance, WorkItemOk, ResponseOk, EvidenceThen;
    AdvanceProgress(cfg, item, before, response);
  }

  /** The runs of one history share their identity with the first one saved. */
  lemma {:induction false} SameIdentity(cfg: Config, id: string, log: seq<Entry>, i: nat)
    requires LogOk(cfg, id, log) && i < |log|
    ensures log[i].after.correlation == log[0].after.correlation && log[i].after.runId == id
    ensures log[i].after.events != [] && log[0].after.events != [] && log[i].after.events[0] == log[0].after.events[0]
  {
    hide Valid, Accepted, Clean, Allowed, Advance, TransitionTo, WorkItemOk, ResponseOk, RemediationCount;
    assert EntryOk(cfg, id, log, i);
    if i > 0 {
      SameIdentity(cfg, id, log, i - 1);
    }
  }

  lemma IssuedIsOk(cfg: Config, id: string, s: System, item: WorkItem, run: WorkRun, response: Response)
    requires LogOk(cfg, id, s.log) && InLog(s.log, run) && run.events != [] && WorkItemOk(cfg.rules, item)
    requires Matches(run, item)
    ensures forall r | r in IssuedRequests(cfg, item, run, response) :: IssuedOk(cfg, id, s.log, r)
  {
    hide LogOk, WorkItemOk, ContentOf, IsSha256, IsIssueKey, ExactTextOk, IsExecutorIdentifier;
    var i :| 0 <= i < |s.log| && SavedAt(s.log, i, run);
    SameIdentity(cfg, id, s.log, i);
    SameIdentity(cfg, id, s.log, 0);
  }

  lemma ComputeKeeps(cfg: Config, id: string, s: System, pid: nat, response: Response)
    requires Inv(cfg, id, s) && ResponseOk(cfg.rules, response)
    ensures Inv(cfg, id, ActCompute(cfg, s, pid, response))
  {
    hide Storable, Advance, ResponseOk, WorkItemOk, IssuedRequests, IssuedOk, NextSave, FirstSave, FinishedBy, EntryOk;
    if pid in s.processes && s.processes[pid].Looping? && s.processes[pid].current.events != [] {
      assert ProcessOk(cfg, id, s, pid);
      var Looping(item, current) := s.processes[pid];
      InLogIsStorable(cfg, id, s.log, current);
      if Advance(cfg, item, current, response).Ok? {
        ComputedIsNextSave(cfg, id, item, current, response);
      }
      IssuedIsOk(cfg, id, s, item, current, response);
      var next := ActCompute(cfg, s, pid, response).processes[pid];
      var issued := s.requests + IssuedRequests(cfg, item, current, response);
      ReplaceProcess(cfg, id, s, pid, next);
      RequestsGrow(cfg, id, s.(processes := s.processes[pid := next]), issued);
    }
  }

  lemma RequestsGrow(cfg: Config, id: string, s: System, requests: seq<Issued>)
    requires Inv(cfg, id, s) && forall r | r in requests :: IssuedOk(cfg, id, s.log, r)
    ensures Inv(cfg, id, s.(requests := requests))
  {
    hide Storable, NextSave, FirstSave, FinishedBy, EntryOk, Matches, WorkItemOk;
    var s' := s.(requests := requests);
    assert forall q | q in s.processes :: ProcessOk(cfg, id, s, q) ==> ProcessOk(cfg, id, s', q);
  }

  // ---------------------------------------------------------------- the compare-and-swap

  lemma InLogGrows(log: seq<Entry>, e: Entry, run: WorkRun)
    ensures InLog(log, run) ==> InLog(log + [e], run)
  {
    if InLog(log, run) {
      var i :| 0 <= i < |log| && SavedAt(log, i, run);
      assert SavedAt(log + [e], i, run);
    }
  }

  lemma LogGrows(cfg: Config, id: string, log: seq<Entry>, e: Entry)
    requires LogOk(cfg, id, log)
    requires if log == [] then e.before == None && FirstSave(cfg, id, e.cause, e.after)
             else e.before == Some(log[|log| - 1].after)
                  && NextSave(cfg, id, e.cause, log[|log| - 1].after, e.after)
    ensures LogOk(cfg, id, log + [e])
  {
    hide FirstSave, NextSave;
    var all := log + [e];
    assert forall i | 0 <= i < |log| :: EntryOk(cfg, id, log, i) ==> EntryOk(cfg, id, all, i);
    assert EntryOk(cfg, id, all, |log|);
  }

  /** Nothing that still reports, or has reported, remembers an unfinished run. */
  lemma UnfinishedIsUnreported(cfg: Config, id: string, s: System)
    requires Inv(cfg, id, s) && (s.log != [] ==> !Terminal(s.log[|s.log| - 1].after.state))
    ensures s.reports == []
    ensures forall pid | pid in s.processes :: !s.processes[pid].Reporting?
  {
    forall pid | pid in s.processes
      ensures !s.processes[pid].Reporting?
    {
      assert ProcessOk(cfg, id, s, pid);
    }
  }

  lemma CommitKeeps(cfg: Config, id: string, s: System, pid: nat)
    requires Inv(cfg, id, s)
    ensures Inv(cfg, id, ActCommit(s, pid))
  {
    hide Storable, LogOk, IssuedOk;
    if pid in s.processes && s.processes[pid].Saving? {
      assert ProcessOk(cfg, id, s, pid);
      if s.stored == s.processes[pid].expected {
        SwapKeeps(cfg, id, s, pid);
      } else {
        ReplaceProcess(cfg, id, s, pid, Ended);
      }
    }
  }

  /** Only an unfinished run is followed by another save. */
  lemma NextSaveIsOpen(cfg: Config, id: string, cause: Cause, before: WorkRun, after: WorkRun)
    requires NextSave(cfg, id, cause, before, after)
    ensures !Terminal(before.state)
  {
    hide Storable, Sound, Advance, TransitionTo, Clean, RemediationCount, Allowed;
  }

  lemma SwapExtendsLog(cfg: Config, id: string, s: System, pid: nat)
    requires Inv(cfg, id, s) && pid in s.processes && s.processes[pid].Saving?
    requires s.stored == s.processes[pid].expected
    ensures LogOk(cfg, id, ActCommit(s, pid).log)
    ensures s.log != [] ==> !Terminal(s.log[|s.log| - 1].after.state)
  {
    hide FirstSave, NextSave, RequestsOk, LogOk, ReportsOk;
    assert ProcessOk(cfg, id, s, pid);
    var Saving(cause, expected, updated) := s.processes[pid];
    if s.log != [] {
      NextSaveIsOpen(cfg, id, cause, s.log[|s.log| - 1].after, updated);
    }
    LogGrows(cfg, id, s.log, Entry(pid, cause, expected, updated));
  }

  lemma SwapKeeps(cfg: Config, id: string, s: System, pid: nat)
    requires Inv(cfg, id, s) && pid in s.processes && s.processes[pid].Saving?
    requires s.stored == s.processes[pid].expected
    ensures Inv(cfg, id, ActCommit(s, pid))
  {
    hide ProcessOk, IssuedOk, LogOk, FinishedBy;
    var s' := ActCommit(s, pid);
    SwapExtendsLog(cfg, id, s, pid);
    UnfinishedIsUnreported(cfg, id, s);
    SavedProcessIsOk(cfg, id, s, pid);
    forall q | q in s'.processes
      ensures ProcessOk(cfg, id, s', q)
    {
      if q != pid {
        OtherProcessIsOk(cfg, id, s, pid, q);
      }
    }
    FirstStays(cfg, id, s, s');
  }

  lemma FirstStays(cfg: Config, id: string, s: System, s': System)
    requires RequestsOk(cfg, id, s) && s.log <= s'.log && s'.requests == s.requests
    ensures RequestsOk(cfg, id, s')
  {
    assert forall r | r in s.requests :: IssuedOk(cfg, id, s.log, r) ==> IssuedOk(cfg, id, s'.log, r);
  }

  /** What a save tells about the run that its process goes on with. */
  lemma SavedFacts(cfg: Config, id: string, cause: Cause, before: Option<WorkRun>, updated: WorkRun)
    requires match before
             case None => FirstSave(cfg, id, cause, updated)
             case Some(run) => NextSave(cfg, id, cause, run, updated)
    ensures match cause
            case Ingested(item) => !Terminal(updated.state) && Matches(updated, item) && WorkItemOk(cfg.rules, item)
            case NotReady(_, _, _) => Terminal(updated.state)
            case Stage(item, _) => Matches(updated, item) && WorkItemOk(cfg.rules, item)
            case Commanded(_, _, _) => true
  {
    hide Storable, Sound, WorkItemOk, Advance, TransitionTo, BlockUnready, Clean, RemediationCount, Allowed;
  }

  lemma SavedProcessIsOk(cfg: Config, id: string, s: System, pid: nat)
    requires Inv(cfg, id, s) && pid in s.processes && s.processes[pid].Saving?
    requires s.stored == s.processes[pid].expected && s.reports == []
    ensures ProcessOk(cfg, id, ActCommit(s, pid), pid)
  {
    hide FirstSave, NextSave, WorkItemOk, Matches, RequestsOk, LogOk;
    assert ProcessOk(cfg, id, s, pid);
    var Saving(cause, expected, updated) := s.processes[pid];
    SavedFacts(cfg, id, cause, expected, updated);
    LastIsInLog(ActCommit(s, pid).log);
  }

  lemma OtherProcessIsOk(cfg: Config, id: string, s: System, pid: nat, q: nat)
    requires Inv(cfg, id, s) && pid in s.processes && s.processes[pid].Saving?
    requires s.stored == s.processes[pid].expected
    requires q in s.processes && q != pid && !s.processes[q].Reporting?
    ensures ProcessOk(cfg, id, ActCommit(s, pid), q)
  {
    hide Storable, FirstSave, NextSave, WorkItemOk, Matches, RequestsOk, LogOk;
    assert ProcessOk(cfg, id, s, q);
    var Saving(cause, expected, updated) := s.processes[pid];
    var e := Entry(pid, cause, expected, updated);
    match s.processes[q]
    case Looping(_, current) => InLogGrows(s.log, e, current);
    case Saving(_, Some(before), _) => InLogGrows(s.log, e, before);
    case _ =>
  }

  // ---------------------------------------------------------------- the remaining actions

  lemma NotifyKeeps(cfg: Config, id: string, s: System, pid: nat)
    requires Inv(cfg, id, s)
    ensures Inv(cfg, id, ActNotify(cfg, s, pid))
  {
    hide Storable, FirstSave, NextSave, WorkItemOk, Matches, LogOk, IssuedOk;
    if pid in s.processes && s.processes[pid].Reporting? {
      assert ProcessOk(cfg, id, s, pid);
      var s' := ActNotify(cfg, s, pid);
      forall q | q in s'.processes
        ensures ProcessOk(cfg, id, s', q)
      {
        assert ProcessOk(cfg, id, s, q);
      }
      FirstStays(cfg, id, s, s');
    }
  }

  lemma CommandKeeps(cfg: Config, id: string, s: System, pid: nat, target: State, actor: string, at: Reading)
    requires Inv(cfg, id, s)
    ensures Inv(cfg, id, ActCommand(cfg, s, pid, target, actor, at))
  {
    hide Storable, FirstSave, LogOk, IssuedOk, TransitionTo, FinishedBy, Progress;
    if pid !in s.processes {
      var process := ActCommand(cfg, s, pid, target, actor, at).processes[pid];
      if process.Saving? {
        LastIsInLog(s.log);
        InLogIsStorable(cfg, id, s.log, s.stored.value);
        CommandIsNextSave(cfg, id, s.stored.value, target, actor, at);
      }
      ReplaceProcess(cfg, id, s, pid, process);
    }
  }

  lemma CommandIsNextSave(cfg: Config, id: string, before: WorkRun, target: State, actor: string, at: Reading)
    requires Storable(cfg, id, before) && (target.Cancelled? || target.Verifying?)
    requires TransitionTo(cfg.rules, before, target, actor, at, []).Ok?
    ensures NextSave(
      cfg, id, Commanded(target, actor, at), before, TransitionTo(cfg.rules, before, target, actor, at, []).value)
  {
    hide Valid, Accepted, Clean, TransitionTo;
    TransitionIsProgress(cfg, before, target, actor, at, []);
  }

  lemma ActKeeps(cfg: Config, id: string, s: System, a: Action)
    requires Inv(cfg, id, s) && ActionOk(cfg, id, a)
    ensures Inv(cfg, id, Act(cfg, s, a))
  {
    hide Inv, ActStart, ActCompute, ActCommit, ActNotify, ActCommand;
    match a
    case Start(pid, approved, item, readiness, times) =>
      StartKeeps(cfg, id, s, pid, approved, item, readiness, times);
    case Compute(pid, response) => ComputeKeeps(cfg, id, s, pid, response);
    case Commit(pid) => CommitKeeps(cfg, id, s, pid);
    case Notify(pid) => NotifyKeeps(cfg, id, s, pid);
    case Crash(pid) => CrashKeeps(cfg, id, s, pid);
    case Command(pid, target, actor, at) => CommandKeeps(cfg, id, s, pid, target, actor, at);
  }

  lemma CrashKeeps(cfg: Config, id: string, s: System, pid: nat)
    requires Inv(cfg, id, s)
    ensures Inv(cfg, id, ActCrash(s, pid))
  {
    hide LogOk, RequestsOk, FinishedBy;
    if pid in s.processes {
      ReplaceProcess(cfg, id, s, pid, Ended);
    }
  }

  /** The invariant holds after every history. */
  lemma {:induction false} HistoryKeeps(cfg: Config, id: string, actions: seq<Action>)
    requires ActionsOk(cfg, id, actions)
    ensures Inv(cfg, id, History(cfg, actions))
    decreases |actions|
  {
    hide ActionOk, Act, ProcessOk, EntryOk;
    if actions != [] {
      var front := actions[..|actions| - 1];
      HistoryKeeps(cfg, id, front);
      ActKeeps(cfg, id, History(cfg, front), actions[|actions| - 1]);
    }
  }

  // ---------------------------------------------------------------- what holds of every history

  lemma {:induction false} LogExtends(cfg: Config, id: string, log: seq<Entry>, i: nat, j: nat)
    requires LogOk(cfg, id, log) && i < j < |log|
    ensures Extends(log[i].after, log[j].after)
    decreases j
  {
    hide Storable, Clean, Advance, TransitionTo, Sound, RemediationCount, Allowed, Extends;
    assert EntryOk(cfg, id, log, j);
    if i < j - 1 {
      LogExtends(cfg, id, log, i, j - 1);
      ExtendsTransitive(log[i].after, log[j - 1].after, log[j].after);
    }
  }

  /** What a reader of the store can rely on. */
  ghost predicate Stored(cfg: Config, id: string, run: WorkRun) {
    && run.runId == id
    && Valid(cfg.rules, run) && Accepted(run) && Built(cfg.rules, run)
    && RemediationCount(run) <= cfg.maxCycles
  }

  lemma EntryIsStored(cfg: Config, id: string, log: seq<Entry>, i: nat)
    requires LogOk(cfg, id, log) && i < |log|
    ensures Stored(cfg, id, log[i].after)
    ensures log[i].before == if i == 0 then None else Some(log[i - 1].after)
  {
    hide Valid, Accepted, Clean, Built, Progress, Advance, TransitionTo;
    assert EntryOk(cfg, id, log, i);
    AcceptedIsBuilt(cfg.rules, log[i].after);
  }

  ghost predicate AppendOnly(cfg: Config, id: string, log: seq<Entry>) {
    && (forall i | 0 <= i < |log| ::
          && log[i].before == (if i == 0 then None else Some(log[i - 1].after))
          && Stored(cfg, id, log[i].after))
    && (forall i, j | 0 <= i < j < |log| :: Extends(log[i].after, log[j].after))
  }

  lemma LogIsAppendOnly(cfg: Config, id: string, log: seq<Entry>)
    requires LogOk(cfg, id, log)
    ensures AppendOnly(cfg, id, log)
  {
    hide Extends, Stored, LogOk;
    forall i: nat | i < |log|
      ensures log[i].before == (if i == 0 then None else Some(log[i - 1].after)) && Stored(cfg, id, log[i].after)
    {
      EntryIsStored(cfg, id, log, i);
    }
    forall i: nat, j: nat | i < j < |log|
      ensures Extends(log[i].after, log[j].after)
    {
      LogExtends(cfg, id, log, i, j);
    }
  }

  /**
   Append-only: every successful save replaced exactly the checkpoint saved before it by a
   continuation of it, so a finished checkpoint is never replaced; and each stored checkpoint
   passes the resumption checks and can be built by the operations of the aggregate.
   */
  lemma SavesOnlyExtend(cfg: Config, id: string, actions: seq<Action>)
    requires ActionsOk(cfg, id, actions)
    ensures
      var s := History(cfg, actions);
      && s.stored == (if s.log == [] then None else Some(s.log[|s.log| - 1].after))
      && AppendOnly(cfg, id, s.log)
  {
    hide LogOk, ProcessesOk, ReportsOk, RequestsOk, AppendOnly, History;
    HistoryKeeps(cfg, id, actions);
    LogIsAppendOnly(cfg, id, History(cfg, actions).log);
  }

  // ---------------------------------------------------------------- what is published was verified

  /** The save at `i` is a verified one: see the three clauses. */
  ghost predicate VerifiedSave(log: seq<Entry>, i: int)
    requires 0 <= i < |log|
  {
    && i > 0 && log[i - 1].after.state.Verifying?
    && log[i].cause.Stage?
    && var verdict := log[i].cause.response.verification;
       && verdict.Some? && verdict.value.passed
       && EvidenceThen(log[i - 1].after, log[i].after, verdict.value.artifacts, PublishingDraftPr)
  }

  lemma CommandedStates(cfg: Config, before: WorkRun, target: State, actor: string, at: Reading)
    requires TransitionTo(cfg.rules, before, target, actor, at, []).Ok?
    ensures TransitionTo(cfg.rules, before, target, actor, at, []).value.state == target
  {
  }

  lemma PublishingIsVerified(cfg: Config, id: string, log: seq<Entry>, i: nat)
    requires LogOk(cfg, id, log) && i < |log| && log[i].after.state.PublishingDraftPr?
    ensures VerifiedSave(log, i)
  {
    hide Valid, Accepted, Clean, Advance, Progress, WorkItemOk, ResponseOk, EvidenceThen, TransitionTo;
    assert EntryOk(cfg, id, log, i);
    if i > 0 {
      assert EntryOk(cfg, id, log, i - 1);
      match log[i].cause
      case Stage(item, response) => AdvanceProgress(cfg, item, log[i - 1].after, response);
      case Commanded(target, actor, at) => CommandedStates(cfg, log[i - 1].after, target, actor, at);
      case _ =>
    }
  }

  lemma CompletionFollowsPublishing(cfg: Config, id: string, log: seq<Entry>, i: nat)
    requires LogOk(cfg, id, log) && i < |log| && log[i].after.state.Completed?
    ensures i > 0 && log[i - 1].after.state.PublishingDraftPr?
  {
    hide Valid, Accepted, Clean, Advance, WorkItemOk, ResponseOk, TransitionTo;
    assert EntryOk(cfg, id, log, i);
  }

  /**
   In every history, a checkpoint that is publishing was saved by a runner whose verifier passed
   exactly the checkpoint stored before it, with only that verifier's own evidence in between;
   and a completed checkpoint directly follows such a publishing one.
   */
  lemma PublishedIsVerified(cfg: Config, id: string, actions: seq<Action>)
    requires ActionsOk(cfg, id, actions)
    ensures
      var log := History(cfg, actions).log;
      && (forall i | 0 <= i < |log| && log[i].after.state.PublishingDraftPr? :: VerifiedSave(log, i))
      && (forall i | 0 <= i < |log| && log[i].after.state.Completed? :: i > 0 && VerifiedSave(log, i - 1))
  {
    hide LogOk, ProcessesOk, ReportsOk, RequestsOk, History, VerifiedSave;
    HistoryKeeps(cfg, id, actions);
    var log := History(cfg, actions).log;
    forall i: nat | i < |log| && log[i].after.state.PublishingDraftPr?
      ensures VerifiedSave(log, i)
    {
      PublishingIsVerified(cfg, id, log, i);
    }
    forall i: nat | i < |log| && log[i].after.state.Completed?
      ensures i > 0 && VerifiedSave(log, i - 1)
    {
      CompletionFollowsPublishing(cfg, id, log, i);
      PublishingIsVerified(cfg, id, log, i - 1);
    }
  }

  // ---------------------------------------------------------------- where evidence comes from

  /** The save at `i` added exactly what its stage's port handed over, or failed and added nothing. */
  ghost predicate ExplainedSave(cfg: Config, log: seq<Entry>, i: int)
    requires 0 < i < |log|
  {
    var before, after := log[i - 1].after, log[i].after;
    match log[i].cause
    case Stage(_, response) => KeepsEvidence(before, after, StageEvidence(cfg, before, response))
    case _ => after.artifacts == before.artifacts
  }

  /** How the save at `i` came to be in verification: see the three cases. */
  ghost predicate EntersVerification(log: seq<Entry>, i: int)
    requires 0 < i < |log|
  {
    var before := log[i - 1].after;
    match log[i].cause
    case Commanded(target, _, _) => target.Verifying? && (before.state.Executing? || before.state.Remediating?)
    case Stage(_, r) =>
      || (before.state.Remediating? && r.remediation.Some?)
      || (&& before.state.Executing? && r.policy.Some? && r.policy.value.allowed
          && r.execution.Some? && r.execution.value.outcome.OutcomeCompleted?)
    case _ => false
  }

  lemma CommandAddsNothing(cfg: Config, before: WorkRun, target: State, actor: string, at: Reading)
    requires TransitionTo(cfg.rules, before, target, actor, at, []).Ok?
    ensures
      var after := TransitionTo(cfg.rules, before, target, actor, at, []).value;
      after.artifacts == before.artifacts && after.state == target && Allowed(before.state, target)
  {
  }

  lemma SaveIsExplained(cfg: Config, id: string, log: seq<Entry>, i: nat)
    requires LogOk(cfg, id, log) && 0 < i < |log|
    ensures ExplainedSave(cfg, log, i)
    ensures log[i].after.state.Verifying? ==> EntersVerification(log, i)
  {
    hide Valid, Accepted, Clean, Advance, Progress, WorkItemOk, ResponseOk, TransitionTo, StageEvidence, KeepsEvidence;
    assert EntryOk(cfg, id, log, i);
    assert EntryOk(cfg, id, log, i - 1);
    match log[i].cause
    case Stage(item, response) => AdvanceKeeps(cfg, item, log[i - 1].after, response);
    case Commanded(target, actor, at) => CommandAddsNothing(cfg, log[i - 1].after, target, actor, at);
    case _ =>
  }

  lemma FirstIsNotVerifying(cfg: Config, id: string, log: seq<Entry>)
    requires LogOk(cfg, id, log) && log != []
    ensures !log[0].after.state.Verifying? && log[0].after.artifacts == []
  {
    hide Valid, Accepted, MakeEvent, Invariant, RemediationCount;
    assert EntryOk(cfg, id, log, 0);
  }

  /**
   In every history, a run starts without evidence, each later save adds exactly what the port
   of its stage handed over (or fails and adds nothing), and verification is entered only after
   an execution that was allowed and completed, after a correction, or by the `retry` command.
   */
  lemma EvidenceIsExplained(cfg: Config, id: string, actions: seq<Action>)
    requires ActionsOk(cfg, id, actions)
    ensures
      var log := History(cfg, actions).log;
      && (log != [] ==> log[0].after.artifacts == [])
      && (forall i | 0 < i < |log| :: ExplainedSave(cfg, log, i))
      && (forall i | 0 <= i < |log| && log[i].after.state.Verifying? :: i > 0 && EntersVerification(log, i))
  {
    hide LogOk, ProcessesOk, ReportsOk, RequestsOk, History, ExplainedSave, EntersVerification;
    HistoryKeeps(cfg, id, actions);
    var log := History(cfg, actions).log;
    if log != [] {
      FirstIsNotVerifying(cfg, id, log);
    }
    forall i: nat | 0 < i < |log|
      ensures ExplainedSave(cfg, log, i) && (log[i].after.state.Verifying? ==> EntersVerification(log, i))
    {
      SaveIsExplained(cfg, id, log, i);
    }
  }

  // ---------------------------------------------------------------- bounded work

  lemma SaveSpends(cfg: Config, id: string, log: seq<Entry>, i: nat)
    requires LogOk(cfg, id, log) && 0 < i < |log|
    ensures SavesLeft(cfg, log[i].after) < SavesLeft(cfg, log[i - 1].after)
  {
    hide Valid, Accepted, Clean, Advance, WorkItemOk, ResponseOk, TransitionTo, SavesLeft, Allowed, EvidenceThen;
    assert EntryOk(cfg, id, log, i);
    assert EntryOk(cfg, id, log, i - 1);
    ProgressSpends(cfg, log[i - 1].after, log[i].after);
  }

  lemma {:induction false} LogSpends(cfg: Config, id: string, log: seq<Entry>, i: nat)
    requires LogOk(cfg, id, log) && i < |log|
    ensures SavesLeft(cfg, log[i].after) + i <= 2 * cfg.maxCycles + 4
  {
    hide Valid, Accepted, Clean, Advance, Progress, WorkItemOk, ResponseOk, TransitionTo;
    if i == 0 {
      assert EntryOk(cfg, id, log, 0);
    } else {
      SaveSpends(cfg, id, log, i);
      LogSpends(cfg, id, log, i - 1);
    }
  }

  /**
   Bounded work: over all resumptions, crashes, commands and concurrent runners with the same
   limit, the stored run never records more remediations than the limit, and at most
   `2 * limit + 5` saves ever succeed.
   */
  lemma WorkIsBounded(cfg: Config, id: string, actions: seq<Action>)
    requires ActionsOk(cfg, id, actions)
    ensures
      var s := History(cfg, actions);
      && |s.log| <= 2 * cfg.maxCycles + 5
      && (s.stored.Some? ==> RemediationCount(s.stored.value) <= cfg.maxCycles)
  {
    hide LogOk, ProcessesOk, ReportsOk, RequestsOk, History, SavesLeft, Valid, Accepted, Built, RemediationCount;
    HistoryKeeps(cfg, id, actions);
    var log := History(cfg, actions).log;
    if log != [] {
      LogSpends(cfg, id, log, |log| - 1);
      EntryIsStored(cfg, id, log, |log| - 1);
    }
  }

  // ---------------------------------------------------------------- what the commands can do

  /**
   The `retry` command succeeds on executing runs as well as on remediating ones, and then
   moves them to verification with no new evidence: nothing was executed or corrected.
   */
  lemma RetryOutcome(cfg: Config, run: WorkRun, actor: string, at: Reading)
    requires Valid(cfg.rules, run)
    ensures
      var r := TransitionTo(cfg.rules, run, Verifying, actor, at, []);
      && (r.Ok? <==>
            && (run.state.Executing? || run.state.Remediating?)
            && IsIdentifier(Strip(actor))
            && at.Aware? && run.events[|run.events| - 1].at <= at.instant)
      && (r.Ok? ==> r.value.state.Verifying? && r.value.artifacts == run.artifacts)
  {
    hide Invariant, EventsProducible, CorrelationOk, ArtifactsOk, IsIdentifier;
    TransitionEffect(cfg.rules, run, Verifying, actor, at, []);
  }
}
