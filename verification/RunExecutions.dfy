/**
 Executions over whole histories: how often the executor is called, and that every call hands it
 the approved specification.
 */
module RunExecutions {
  import opened Wrappers
  import opened Text
  import opened WorkRuns
  import opened CheckpointValidation
  import opened WorkItems
  import opened WorkflowStages
  import opened OutcomeReports
  import opened RunHistories

  // ---------------------------------------------------------------- how often the executor is called

  /** An invocation takes over a checkpoint that is being executed. */
  predicate Resumes(cfg: Config, s: System, a: Action) {
    && a.Start? && a.pid !in s.processes
    && var process := StartProcess(cfg, s.stored, a.approved, a.item, a.readiness, a.times);
       process.Looping? && process.current.state.Executing?
  }

  /** How many invocations of a history did so. */
  function Resumptions(cfg: Config, actions: seq<Action>): nat
    decreases |actions|
  {
    if actions == [] then 0
    else
      var front, a := actions[..|actions| - 1], actions[|actions| - 1];
      Resumptions(cfg, front) + if Resumes(cfg, History(cfg, front), a) then 1 else 0
  }

  predicate IsExecutor(s: System, pid: nat) {
    pid in s.processes && s.processes[pid].Looping? && s.processes[pid].current.state.Executing?
  }

  /** The processes that are about to call the executor. */
  function Executors(s: System): set<nat> {
    set pid | pid in s.processes && IsExecutor(s, pid)
  }

  predicate ExecutionSaved(log: seq<Entry>) {
    exists i | 0 <= i < |log| :: log[i].after.state.Executing?
  }

  /** The calls made and the calls to come: one for the save into execution, and one for each resumption. */
  predicate WithinBudget(s: System, resumptions: nat) {
    |s.requests| + |Executors(s)| <= resumptions + if ExecutionSaved(s.log) then 1 else 0
  }

  lemma ExecutorsAre(s: System, pid: nat)
    ensures pid in Executors(s) <==> IsExecutor(s, pid)
  {
  }

  lemma ExecutorsChange(s: System, t: System, pid: nat)
    requires forall q: nat | q != pid :: IsExecutor(t, q) <==> IsExecutor(s, q)
    ensures |Executors(t)| == |Executors(s)| + (if IsExecutor(t, pid) then 1 else 0) - (if IsExecutor(s, pid) then 1 else 0)
  {
    hide IsExecutor, Executors;
    var others := Executors(s) - {pid};
    forall q: nat
      ensures q in Executors(s) <==> IsExecutor(s, q)
      ensures q in Executors(t) <==> IsExecutor(t, q)
    {
      ExecutorsAre(s, q);
      ExecutorsAre(t, q);
    }
    assert Executors(s) == others + if IsExecutor(s, pid) then {pid} else {};
    assert Executors(t) == others + if IsExecutor(t, pid) then {pid} else {};
  }

  /** The approved state is the first one saved and is never entered again. */
  lemma ApprovedIsFirst(cfg: Config, id: string, log: seq<Entry>, i: nat)
    requires LogOk(cfg, id, log) && i < |log| && log[i].after.state.Approved?
    ensures i == 0
  {
    hide Valid, Accepted, Clean, Advance, WorkItemOk, ResponseOk, TransitionTo, RemediationCount;
    assert EntryOk(cfg, id, log, i);
  }

  lemma ExecutingFollowsApproved(cfg: Config, id: string, cause: Cause, before: Option<WorkRun>, updated: WorkRun)
    requires match before
             case None => FirstSave(cfg, id, cause, updated)
             case Some(run) => NextSave(cfg, id, cause, run, updated)
    requires updated.state.Executing?
    ensures before.Some? && before.value.state.Approved?
  {
    hide Storable, Sound, WorkItemOk, Advance, TransitionTo, BlockUnready, Clean, RemediationCount, Matches;
  }

  lemma SavingIsOk(cfg: Config, id: string, s: System, pid: nat)
    requires Inv(cfg, id, s) && pid in s.processes && s.processes[pid].Saving?
    ensures match s.processes[pid].expected
            case None => FirstSave(cfg, id, s.processes[pid].cause, s.processes[pid].updated)
            case Some(run) => NextSave(cfg, id, s.processes[pid].cause, run, s.processes[pid].updated)
  {
    hide LogOk, RequestsOk, ReportsOk, FirstSave, NextSave;
    assert ProcessOk(cfg, id, s, pid);
  }

  lemma CommitBudget(cfg: Config, id: string, s: System, pid: nat, n: nat)
    requires Inv(cfg, id, s) && WithinBudget(s, n)
    ensures WithinBudget(ActCommit(s, pid), n)
  {
    hide LogOk, RequestsOk, ReportsOk, FirstSave, NextSave, ProcessesOk, Executors;
    var t := ActCommit(s, pid);
    ExecutorsChange(s, t, pid);
    if pid in s.processes && s.processes[pid].Saving? && s.stored == s.processes[pid].expected {
      var Saving(cause, expected, updated) := s.processes[pid];
      assert t.log[|s.log|].after == updated;
      if ExecutionSaved(s.log) {
        var i :| 0 <= i < |s.log| && s.log[i].after.state.Executing?;
        assert t.log[i] == s.log[i];
      }
      if updated.state.Executing? {
        SavingIsOk(cfg, id, s, pid);
        ExecutingFollowsApproved(cfg, id, cause, expected, updated);
        ApprovedIsFirst(cfg, id, s.log, |s.log| - 1);
      }
    }
  }

  lemma ComputeBudget(cfg: Config, s: System, pid: nat, response: Response, n: nat)
    requires WithinBudget(s, n)
    ensures WithinBudget(ActCompute(cfg, s, pid, response), n)
  {
    hide Executors, Advance, StageRequest;
    var t := ActCompute(cfg, s, pid, response);
    ExecutorsChange(s, t, pid);
  }

  lemma ActBudget(cfg: Config, id: string, s: System, a: Action, n: nat)
    requires Inv(cfg, id, s) && WithinBudget(s, n)
    ensures WithinBudget(Act(cfg, s, a), n + if Resumes(cfg, s, a) then 1 else 0)
  {
    hide Inv, ActCommit, ActCompute, StartProcess, TransitionTo, NoticeOf, Executors, ExecutionSaved;
    match a
    case Compute(pid, response) => ComputeBudget(cfg, s, pid, response, n);
    case Commit(pid) => CommitBudget(cfg, id, s, pid, n);
    case Start(pid, _, _, _, _) => ExecutorsChange(s, Act(cfg, s, a), pid);
    case Notify(pid) => ExecutorsChange(s, Act(cfg, s, a), pid);
    case Crash(pid) => ExecutorsChange(s, Act(cfg, s, a), pid);
    case Command(pid, _, _, _) => ExecutorsChange(s, Act(cfg, s, a), pid);
  }

  lemma {:induction false} HistoryBudget(cfg: Config, id: string, actions: seq<Action>)
    requires ActionsOk(cfg, id, actions)
    ensures WithinBudget(History(cfg, actions), Resumptions(cfg, actions))
    decreases |actions|
  {
    hide ActionOk, Act, Inv, WithinBudget, Resumes;
    if actions == [] {
      NothingToExecute(cfg);
    } else {
      var front, a := actions[..|actions| - 1], actions[|actions| - 1];
      HistoryBudget(cfg, id, front);
      HistoryKeeps(cfg, id, front);
      ActBudget(cfg, id, History(cfg, front), a, Resumptions(cfg, front));
    }
  }

  lemma NothingToExecute(cfg: Config)
    ensures WithinBudget(History(cfg, []), 0)
  {
    assert Executors(EMPTY) == {};
  }

  /** The executor is called at most once, and once more for each invocation that resumes an execution. */
  lemma ExecutionsAreBounded(cfg: Config, id: string, actions: seq<Action>)
    requires ActionsOk(cfg, id, actions)
    ensures |History(cfg, actions).requests| <= 1 + Resumptions(cfg, actions)
  {
    hide History, Resumptions, Executors, ActionOk;
    HistoryBudget(cfg, id, actions);
  }

  predicate Finds(cfg: Config, actions: seq<Action>, j: int)
    requires 0 <= j < |actions|
  {
    var stored := History(cfg, actions[..j]).stored;
    actions[j].Start? && stored.Some? && stored.value.state.Executing?
  }

  /** If no invocation ever starts while the stored run is executing, the executor is called at most once. */
  lemma AtMostOneExecution(cfg: Config, id: string, actions: seq<Action>)
    requires ActionsOk(cfg, id, actions)
    requires forall j | 0 <= j < |actions| :: !Finds(cfg, actions, j)
    ensures |History(cfg, actions).requests| <= 1
  {
    hide History, Resumptions, ActionOk, Finds;
    ExecutionsAreBounded(cfg, id, actions);
    NothingResumed(cfg, actions);
  }

  lemma {:induction false} NothingResumed(cfg: Config, actions: seq<Action>)
    requires forall j | 0 <= j < |actions| :: !Finds(cfg, actions, j)
    ensures Resumptions(cfg, actions) == 0
    decreases |actions|
  {
    hide History, Accepted, Matches, BlockUnready;
    if actions != [] {
      var front := actions[..|actions| - 1];
      forall j | 0 <= j < |front|
        ensures !Finds(cfg, front, j)
      {
        assert front[..j] == actions[..j];
        assert !Finds(cfg, actions, j);
      }
      NothingResumed(cfg, front);
      assert !Finds(cfg, actions, |front|);
    }
  }

  /**
   The other half: an invocation that resumes an executing checkpoint, and whose policy gate
   agrees, calls the executor once more, whether or not it was called before.
   */
  lemma ResumptionExecutesAgain(
    cfg: Config, id: string, actions: seq<Action>, start: Action, response: Response)
    requires ActionsOk(cfg, id, actions) && ActionOk(cfg, id, start)
    requires Resumes(cfg, History(cfg, actions), start)
    requires response.policy.Some? && response.policy.value.allowed
    ensures
      var s := History(cfg, actions);
      && s.stored.Some? && s.stored.value.events != []
      && var request := StageRequest(cfg, start.item, s.stored.value);
         var again := History(cfg, actions + [start, Compute(start.pid, response)]);
         && again.stored == s.stored
         && again.requests == s.requests + if request.Ok? then [Issued(start.item, request.value)] else []
  {
    hide Advance, StageRequest, BlockUnready, Accepted, Matches, ActionOk;
    var all := actions + [start, Compute(start.pid, response)];
    assert all[..|all| - 1] == actions + [start];
    assert (actions + [start])[..|actions|] == actions;
  }

  // ---------------------------------------------------------------- the approved specification is executed

  /** The digest names one text: no two texts have the same digest. */
  ghost predicate CollisionFree(hash: string -> string) {
    forall a, b :: hash(a) == hash(b) ==> a == b
  }

  /** An executed item and its request are those of the approved item. */
  predicate RunsApproved(x: Issued, approvedItem: WorkItem) {
    && x.item.title == approvedItem.title
    && x.item.description == approvedItem.description
    && x.item.criteria == approvedItem.criteria
    && x.request.content == ContentOf(approvedItem)
    && Split(x.request.content, '\n') == [approvedItem.title, approvedItem.description] + approvedItem.criteria
  }

  /** A request for the first execution of the run that was taken in, with what was approved and by whom. */
  predicate HandsOver(cfg: Config, id: string, first: WorkRun, x: Issued)
    requires first.events != []
  {
    && x.request.executionId == id + ":execution:1"
    && x.request.issueKey == first.correlation.issueKey
    && x.request.revision == x.item.revision == first.correlation.revision
    && x.request.contentSha256 == x.item.contentSha256 == first.correlation.contentSha256
    && x.request.approvedBy == first.events[0].actor
    && x.request.toolNames == cfg.toolNames
    && cfg.hash(x.request.content) == x.request.contentSha256
  }

  lemma RequestHandsOver(cfg: Config, id: string, log: seq<Entry>, x: Issued)
    requires IssuedOk(cfg, id, log, x)
    ensures HandsOver(cfg, id, log[0].after, x)
  {
    hide ContentOf, WorkItemOk;
  }

  /**
   In every history, every execution hands over the content of the work item that its invocation
   read, for the run that was approved, with the approved digest. With a collision-free digest
   that item has the title, the description and the criteria of the approved one, these are the
   lines of the content in that order, and all executions of the history, resumed ones included,
   are one and the same request.
   */
  lemma OneSpecification(cfg: Config, id: string, actions: seq<Action>, approvedItem: WorkItem)
    requires ActionsOk(cfg, id, actions)
    ensures
      var s := History(cfg, actions);
      && (forall x | x in s.requests ::
            && s.log != [] && s.log[0].after.events != []
            && HandsOver(cfg, id, s.log[0].after, x)
            && (LineFeedIsControl(cfg.rules) ==>
                  Split(x.request.content, '\n') == [x.item.title, x.item.description] + x.item.criteria))
      && (LineFeedIsControl(cfg.rules) && CollisionFree(cfg.hash) && WorkItemOk(cfg.rules, approvedItem)
          && s.log != [] && cfg.hash(ContentOf(approvedItem)) == s.log[0].after.correlation.contentSha256 ==>
            forall x | x in s.requests :: RunsApproved(x, approvedItem))
      && (CollisionFree(cfg.hash) ==> forall x, y | x in s.requests && y in s.requests :: x.request == y.request)
  {
    hide LogOk, ProcessesOk, ReportsOk, History, ContentOf, WorkItemOk, ActionOk, HandsOver;
    HistoryKeeps(cfg, id, actions);
    var s := History(cfg, actions);
    forall x | x in s.requests
      ensures s.log != [] && s.log[0].after.events != [] && HandsOver(cfg, id, s.log[0].after, x)
    {
      assert IssuedOk(cfg, id, s.log, x);
      RequestHandsOver(cfg, id, s.log, x);
    }
    if LineFeedIsControl(cfg.rules) {
      forall x | x in s.requests
        ensures Split(x.request.content, '\n') == [x.item.title, x.item.description] + x.item.criteria
      {
        assert IssuedOk(cfg, id, s.log, x);
        ContentLines(cfg.rules, x.item);
      }
    }
    if LineFeedIsControl(cfg.rules) && CollisionFree(cfg.hash) && WorkItemOk(cfg.rules, approvedItem) {
      forall x | x in s.requests && cfg.hash(ContentOf(approvedItem)) == s.log[0].after.correlation.contentSha256
        ensures RunsApproved(x, approvedItem)
      {
        assert IssuedOk(cfg, id, s.log, x);
        ContentIsInjective(cfg.rules, x.item, approvedItem);
        ContentLines(cfg.rules, approvedItem);
      }
    }
  }
}
