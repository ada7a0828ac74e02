/**
 Concrete histories that show how far the guarantees go: a report lost to a crash, a report whose
 update is refused, an execution that a crash repeats, and a run that is cancelled while it executes.
 */
module RunExamples {
  import opened Wrappers
  import opened Text
  import opened WorkRuns
  import opened CheckpointValidation
  import opened WorkItems
  import opened WorkflowStages
  import opened OutcomeReports
  import opened RunHistories
  import opened RunReports
  import opened RunExecutions
  import opened RunCommands

  // ---------------------------------------------------------------- one configuration, item and run

  function Digest(): (digest: string)
    ensures IsSha256(digest)
  {
    seq(64, _ => '0')
  }

  /** Control characters, and URLs with a query, are the only things refused. */
  function ExampleRules(): Rules {
    Rules(
      c => c < ' ' || c == '\U{7F}', _ => false, _ => true, _ => true, (_, _) => true, s => s, s => s,
      url => '?' !in url)
  }

  function ExampleConfig(): Config {
    Config(ExampleRules(), _ => Digest(), "runner", 1, [])
  }

  function ExampleItem(): WorkItem {
    WorkItem("T", "D", [], "r1", Digest())
  }

  function ExampleCorrelation(): Correlation {
    Correlation("AB-1", "u", "r1", Digest(), "u", "b", "a")
  }

  function ApprovedRun(id: string): WorkRun {
    WorkRun(id, ExampleCorrelation(), Approved, [Event(1, ApprovedName, Approved, "h", 0, [])], [], None)
  }

  lemma LetterIsIdentifier(c: char)
    requires AsciiAlnum(c)
    ensures IsIdentifier([c]) && Strip([c]) == [c] && IsExecutorIdentifier([c])
  {
  }

  lemma RevisionIsIdentifier()
    ensures IsIdentifier("r1") && IsExecutorIdentifier("r1")
  {
  }

  lemma IssueKeyOk()
    ensures IsIssueKey("AB-1") && |"AB-1"| == 4
  {
    assert "AB" + ['-'] + "1" == "AB-1";
    SplitFirst("AB", "1", '-');
    SplitWhole("1", '-');
    assert Split("AB-1", '-') == ["AB", "1"];
  }

  lemma ItemOk()
    ensures WorkItemOk(ExampleRules(), ExampleItem()) && Matches(ApprovedRun("r"), ExampleItem())
  {
  }

  lemma ApprovedIsBuilt(id: string)
    requires IsIdentifier(id)
    ensures Built(ExampleRules(), ApprovedRun(id)) && Pristine(ApprovedRun(id))
    ensures Valid(ExampleRules(), ApprovedRun(id)) && Sound(ExampleConfig(), ApprovedRun(id))
  {
    hide IsIdentifier;
    var rules, origin := ExampleRules(), Origin(id, ExampleCorrelation(), "h", Aware(0));
    LetterIsIdentifier('h');
    LetterIsIdentifier('b');
    LetterIsIdentifier('a');
    RevisionIsIdentifier();
    IssueKeyOk();
    IdentifierIsTrimmed(id);
    ApproveEffect(rules, id, ExampleCorrelation(), "h", Aware(0));
    assert TrimDetails([]) == [];
    assert BuiltBy(rules, ApprovedRun(id), origin, []);
    ValidationIsComplete(rules, ApprovedRun(id));
  }

  lemma HistoryNext(cfg: Config, actions: seq<Action>, k: nat)
    requires k < |actions|
    ensures History(cfg, actions[..k + 1]) == Act(cfg, History(cfg, actions[..k]), actions[k])
  {
    assert actions[..k + 1][..k] == actions[..k];
  }

  // ---------------------------------------------------------------- reports that are never made

  function StopDetails(): Details {
    [("failure_code", "work_item_not_ready"), ("summary", "x")]
  }

  lemma StopDetailsOk()
    ensures DistinctKeys(StopDetails())
    ensures forall i | 0 <= i < |StopDetails()| :: DetailOk(ExampleRules(), StopDetails()[i])
  {
    LiteralIsTrimmed("failure_code");
    LiteralIsTrimmed("work_item_not_ready");
    LiteralIsTrimmed("summary");
    LetterIsIdentifier('x');
    assert |"failure_code"| == 12 && |"summary"| == 7 && |"work_item_not_ready"| == 19;
  }

  lemma ActorIsIdentifier()
    ensures IsIdentifier("runner") && Strip("runner") == "runner"
  {
    IdentifierIsTrimmed("runner");
  }

  /** The run of an item that is not ready is blocked. */
  lemma BlocksUnready(id: string)
    requires IsIdentifier(id)
    ensures
      var blocked := BlockUnready(ExampleConfig(), ApprovedRun(id), "x", [Aware(0)]);
      && blocked.Ok? && blocked.value.state.Blocked? && blocked.value.runId == id
      && blocked.value.correlation == ExampleCorrelation()
  {
    hide IsIdentifier, DetailOk, TrimDetails, Valid, DistinctKeys;
    ApprovedIsBuilt(id);
    StopDetailsOk();
    ActorIsIdentifier();
    TransitionEffect(ExampleRules(), ApprovedRun(id), Blocked, "runner", Aware(0), StopDetails());
  }

  /** An invocation that finds its item not ready, up to its save, and what comes next. */
  function UnreadyActions(id: string, last: Action): seq<Action> {
    [Start(0, ApprovedRun(id), ExampleItem(), Unready("x"), [Aware(0)]), Commit(0), last]
  }

  lemma UnreadyActionsOk(id: string, last: Action)
    requires IsIdentifier(id) && (last.Crash? || last.Notify?)
    ensures ActionsOk(ExampleConfig(), id, UnreadyActions(id, last))
  {
    hide IsIdentifier, WorkItemOk, Built;
    ItemOk();
    ApprovedIsBuilt(id);
  }

  lemma UnreadyStarts(id: string)
    requires IsIdentifier(id)
    ensures
      var blocked := BlockUnready(ExampleConfig(), ApprovedRun(id), "x", [Aware(0)]);
      && blocked.Ok?
      && StartProcess(ExampleConfig(), None, ApprovedRun(id), ExampleItem(), Unready("x"), [Aware(0)])
         == Saving(NotReady(ApprovedRun(id), "x", [Aware(0)]), None, blocked.value)
  {
    hide BlockUnready, IsIdentifier, Digest, Accepted;
    ApprovedIsBuilt(id);
    BlocksUnready(id);
    assert Matches(ApprovedRun(id), ExampleItem());
  }

  lemma UnreadyIsReporting(id: string, last: Action)
    requires IsIdentifier(id) && (last.Crash? || last.Notify?)
    ensures ActionsOk(ExampleConfig(), id, UnreadyActions(id, last))
    ensures
      var s := History(ExampleConfig(), UnreadyActions(id, last)[..2]);
      && s.reports == [] && s.processes.Keys == {0} && s.processes[0].Reporting?
      && s.stored == Some(s.processes[0].run) && s.processes[0].run.state.Blocked?
      && s.processes[0].run.runId == id && s.processes[0].run.correlation == ExampleCorrelation()
  {
    hide BlockUnready, IsIdentifier, WorkItemOk, Built, StartProcess, ActionsOk, ApprovedRun, ExampleItem, ExampleConfig;
    var cfg, actions := ExampleConfig(), UnreadyActions(id, last);
    UnreadyActionsOk(id, last);
    UnreadyStarts(id);
    BlocksUnready(id);
    assert actions[..0] == [];
    HistoryNext(cfg, actions, 0);
    HistoryNext(cfg, actions, 1);
  }

  /** A crash between the save and the report loses the report of a run that was fit to be reported. */
  lemma CrashLosesReport()
    ensures
      var cfg, actions := ExampleConfig(), UnreadyActions("r", Crash(0));
      var s := History(cfg, actions);
      && ActionsOk(cfg, "r", actions) && PrintableIsPlain(cfg.rules)
      && ReportLost(s) && Crashed(cfg, actions) && Fits(cfg.rules, s.stored.value)
  {
    hide History, ActionOk;
    var cfg, actions := ExampleConfig(), UnreadyActions("r", Crash(0));
    LetterIsIdentifier('r');
    UnreadyIsReporting("r", Crash(0));
    HistoryNext(cfg, actions, 2);
    assert actions[..3] == actions;
    assert CrashedAt(cfg, actions, 2);
    assert |"AB-1"| == 4 && |"r"| == 1 && |"blocked"| == 7;
  }

  /** A run id that the aggregate accepts but that makes the idempotency key of the report too long. */
  function LongId(): (id: string)
    ensures IsIdentifier(id) && |id| == 250
  {
    seq(250, _ => 'r')
  }

  lemma LongIdIsRefused()
    ensures
      var cfg, actions := ExampleConfig(), UnreadyActions(LongId(), Notify(0));
      && Refused(cfg, actions) && !Crashed(cfg, actions)
      && var s := History(cfg, actions); s.stored.Some? && s.stored.value.state.Blocked?
  {
    hide History, IsIdentifier, LongId, NoticeOf, ExampleConfig;
    var cfg, id := ExampleConfig(), LongId();
    var actions := UnreadyActions(id, Notify(0));
    UnreadyIsReporting(id, Notify(0));
    HistoryNext(cfg, actions, 2);
    assert actions[..3] == actions;
    assert |"blocked"| == 7;
    assert RefusedAt(cfg, actions, 2);
    NoCrash(cfg, actions);
  }

  /** Without any crash, the report of a run with a long id is never made. */
  lemma LongIdLosesReport()
    ensures
      var cfg, actions := ExampleConfig(), UnreadyActions(LongId(), Notify(0));
      && ActionsOk(cfg, LongId(), actions) && PrintableIsPlain(cfg.rules)
      && ReportLost(History(cfg, actions)) && Refused(cfg, actions) && !Crashed(cfg, actions)
  {
    hide History, IsIdentifier, LongId, Refused, Crashed, ReportLost, UnreadyActions, ActionsOk, AppendOnly;
    var cfg, id := ExampleConfig(), LongId();
    var actions := UnreadyActions(id, Notify(0));
    LongIdIsRefused();
    UnreadyActionsOk(id, Notify(0));
    SavesOnlyExtend(cfg, id, actions);
    WhenReportIsLost(cfg, id, actions);
  }

  // ---------------------------------------------------------------- an execution that is repeated

  function Answer(allowed: bool): Response {
    Response([Aware(0)], Some(PolicyDecision(allowed, "")), Some(Execution([], OutcomeCompleted)), None, None, None)
  }

  /** The first invocation dies after the executor was called and before the save; a second one resumes. */
  function CrashedExecution(): (actions: seq<Action>)
    ensures |actions| == 6
  {
    [Start(0, ApprovedRun("r"), ExampleItem(), Ready, []), Commit(0), Compute(0, Answer(true)), Commit(0),
     Compute(0, Answer(true)), Crash(0)]
  }

  function Resumption(): Action {
    Start(1, ApprovedRun("r"), ExampleItem(), Ready, [])
  }

  function ExecutingRun(): WorkRun {
    ApprovedRun("r").(
      state := Executing,
      events := [Event(1, ApprovedName, Approved, "h", 0, []), Event(2, Entered(Executing), Executing, "runner", 0, [])])
  }

  lemma ExecutingIsReached()
    ensures TransitionTo(ExampleRules(), ApprovedRun("r"), Executing, "runner", Aware(0), []) == Ok(ExecutingRun())
    ensures Accepted(ExecutingRun())
  {
    hide IsIdentifier, Valid, Accepted, TransitionTo, DetailOk, DistinctKeys;
    var rules, run := ExampleRules(), ApprovedRun("r");
    LetterIsIdentifier('r');
    ApprovedIsBuilt("r");
    ActorIsIdentifier();
    assert TrimDetails([]) == [];
    NoDetails(rules, []);
    var event := MakeEvent(rules, 2, Entered(Executing), Executing, "runner", Aware(0), []);
    assert event == Ok(Event(2, Entered(Executing), Executing, "runner", 0, []));
    assert run.events + [event.value] == ExecutingRun().events;
    TransitionEffect(rules, run, Executing, "runner", Aware(0), []);
    TransitionKeeps(rules, run, Executing, "runner", Aware(0), []);
  }

  lemma NoDetails(rules: Rules, details: Details)
    requires details == []
    ensures DistinctKeys(details) && forall i | 0 <= i < |details| :: DetailOk(rules, details[i])
  {
  }

  lemma StartsExecuting()
    ensures Advance(ExampleConfig(), ExampleItem(), ApprovedRun("r"), Answer(true)) == Ok(ExecutingRun())
    ensures Accepted(ExecutingRun())
  {
    hide TransitionTo, Accepted, ExampleRules, ExecutingRun;
    ExecutingIsReached();
  }

  lemma RequestIsOk()
    ensures
      StageRequest(ExampleConfig(), ExampleItem(), ExecutingRun())
      == Ok(RequestFor(ExampleConfig(), ApprovedRun("r"), ExampleItem()))
  {
    IssueKeyOk();
    RevisionIsIdentifier();
    LetterIsIdentifier('h');
    ContentIsText();
    ExecutionIdOk();
  }

  lemma ContentIsText()
    ensures ContentOf(ExampleItem()) == "T\nD" && ExactTextOk("T\nD")
  {
    assert StripAll([]) == [];
    assert Strip("T") == "T" && Strip("D") == "D";
    var parts := ["T", "D"];
    assert [Strip("T"), Strip("D")] + StripAll([]) == parts;
    assert parts[1..] == ["D"];
    assert Join(parts, "\n") == "T" + "\n" + "D";
  }

  lemma ExecutionIdOk()
    ensures IsExecutorIdentifier("r" + ":execution:1")
  {
    var suffix := ":execution:1";
    assert |suffix| == 12;
    assert forall i | 0 <= i < |suffix| :: ExecutorIdentifierChar(suffix[i]);
  }

  /** An invocation that ingests a run and takes it into execution. */
  lemma ExecutionBegins(cfg: Config, s: System, start: Action, executing: WorkRun, response: Response)
    requires start.Start? && s.stored.None? && start.pid !in s.processes && start.approved.events != []
    requires StartProcess(cfg, None, start.approved, start.item, start.readiness, start.times)
             == Saving(Ingested(start.item), None, start.approved)
    requires Advance(cfg, start.item, start.approved, response) == Ok(executing)
    requires start.approved.state.Approved? && executing.state.Executing?
    ensures
      var pid := start.pid;
      var t := Act(cfg, Act(cfg, Act(cfg, Act(cfg, s, start), Commit(pid)), Compute(pid, response)), Commit(pid));
      && t.stored == Some(executing) && t.requests == s.requests
      && t.processes == s.processes[pid := Looping(start.item, executing)]
  {
    hide StartProcess, Advance, StageRequest;
  }

  lemma HistoryFour(cfg: Config, a: Action, b: Action, c: Action, d: Action)
    ensures History(cfg, [a, b, c, d]) == Act(cfg, Act(cfg, Act(cfg, Act(cfg, EMPTY, a), b), c), d)
  {
    hide Act;
    HistoryTwo(cfg, [], a, b);
    assert [] + [a, b] == [a, b] && [a, b] + [c, d] == [a, b, c, d];
    HistoryTwo(cfg, [a, b], c, d);
  }

  lemma FirstExecution()
    ensures
      var s := History(ExampleConfig(), CrashedExecution()[..4]);
      && s.stored == Some(ExecutingRun()) && s.requests == []
      && s.processes == map[0 := Looping(ExampleItem(), ExecutingRun())]
  {
    hide StageRequest, Advance, ExampleConfig, ExampleItem, ApprovedRun, ExecutingRun, StartProcess, Act, History;
    var cfg, actions := ExampleConfig(), CrashedExecution();
    ReadyStarts();
    StartsExecuting();
    assert actions[..4] == [actions[0], actions[1], actions[2], actions[3]];
    HistoryFour(cfg, actions[0], actions[1], actions[2], actions[3]);
    ExecutionBegins(cfg, EMPTY, actions[0], ExecutingRun(), Answer(true));
  }

  /** After the crash, one execution was started and the run is still stored as executing. */
  lemma CrashedWhileExecuting()
    ensures
      var s := History(ExampleConfig(), CrashedExecution());
      && s.stored == Some(ExecutingRun()) && s.processes.Keys == {0}
      && s.requests == [Issued(ExampleItem(), RequestFor(ExampleConfig(), ApprovedRun("r"), ExampleItem()))]
  {
    hide StageRequest, ExampleConfig, ExampleItem, ApprovedRun, ExecutingRun, RequestFor, Act, History;
    var cfg, actions := ExampleConfig(), CrashedExecution();
    FirstExecution();
    ReadyStarts();
    RequestIsOk();
    HistoryNext(cfg, actions, 4);
    HistoryNext(cfg, actions, 5);
    assert actions[..6] == actions;
    ExecutionDies(cfg, History(cfg, actions[..4]), 0, ExampleItem(), ExecutingRun(), Answer(true));
  }

  /** An invocation that calls the executor and dies. */
  lemma ExecutionDies(cfg: Config, s: System, pid: nat, item: WorkItem, executing: WorkRun, response: Response)
    requires pid in s.processes && s.processes[pid] == Looping(item, executing) && executing.events != []
    requires executing.state.Executing? && response.policy.Some? && response.policy.value.allowed
    requires StageRequest(cfg, item, executing).Ok?
    ensures
      var t := Act(cfg, Act(cfg, s, Compute(pid, response)), Crash(pid));
      && t.stored == s.stored && t.processes.Keys == s.processes.Keys
      && t.requests == s.requests + [Issued(item, StageRequest(cfg, item, executing).value)]
  {
    hide Advance, StageRequest;
  }

  lemma CrashedActionsOk()
    ensures ActionsOk(ExampleConfig(), "r", CrashedExecution() + [Resumption()])
  {
    hide IsIdentifier, WorkItemOk, Built, ApprovedRun, ExampleItem, ExampleRules;
    LetterIsIdentifier('r');
    ItemOk();
    ApprovedIsBuilt("r");
    ApprovedHasId("r");
  }

  lemma ApprovedHasId(id: string)
    ensures ApprovedRun(id).runId == id
  {
  }

  lemma ReadyStarts()
    ensures
      StartProcess(ExampleConfig(), None, ApprovedRun("r"), ExampleItem(), Ready, [])
      == Saving(Ingested(ExampleItem()), None, ApprovedRun("r"))
    ensures
      StartProcess(ExampleConfig(), Some(ExecutingRun()), ApprovedRun("r"), ExampleItem(), Ready, [])
      == Looping(ExampleItem(), ExecutingRun())
    ensures ApprovedRun("r").events != [] && ApprovedRun("r").state.Approved?
    ensures ExecutingRun().events != [] && ExecutingRun().state.Executing?
  {
    hide Digest, Accepted;
    StartsExecuting();
    assert ExecutingRun().events[..1] == ApprovedRun("r").events;
  }

  /** A crash between the executor and the save: the next invocation executes again, the same request. */
  lemma CrashRepeatsExecution()
    ensures
      var cfg, actions := ExampleConfig(), CrashedExecution() + [Resumption(), Compute(1, Answer(true))];
      var s := History(cfg, actions);
      && ActionsOk(cfg, "r", actions)
      && |s.requests| == 2 && s.requests[0] == s.requests[1]
      && s.stored.Some? && s.stored.value.state.Executing?
  {
    hide History, StartProcess, StageRequest, WorkItemOk, Built, IsIdentifier, RequestFor, Advance;
    var cfg := ExampleConfig();
    CrashedWhileExecuting();
    CrashedActionsOk();
    ReadyStarts();
    RequestIsOk();
    ResumptionExecutesAgain(cfg, "r", CrashedExecution(), Resumption(), Answer(true));
  }

  // ---------------------------------------------------------------- a run that is cancelled

  /** The run is cancelled while its first invocation executes; that invocation then wants to save. */
  function CancelledExecution(): seq<Action> {
    CrashedExecution()[..4] + [Command(1, Cancelled, "h", Aware(0)), Commit(1)]
  }

  function LateSave(): seq<Action> {
    [Compute(0, Answer(true)), Commit(0)]
  }

  lemma CancelActionsOk()
    ensures ActionsOk(ExampleConfig(), "r", CancelledExecution() + LateSave())
  {
    hide ActionOk, CrashedExecution;
    CrashedActionsOk();
    var cfg, before := ExampleConfig(), CrashedExecution() + [Resumption()];
    forall a | a in CancelledExecution() + LateSave()
      ensures ActionOk(cfg, "r", a)
    {
      if a in CrashedExecution()[..4] {
        assert a in before;
      } else {
        AnswerIsOk(cfg, a);
      }
    }
  }

  lemma AnswerIsOk(cfg: Config, a: Action)
    requires !a.Start? && (a.Compute? ==> a.response == Answer(true))
    ensures ActionOk(cfg, "r", a)
  {
  }

  /**
   `cancel` takes effect on an executing run: what is stored is the cancelled run, with one event
   more, and the save of the invocation that was executing no longer succeeds.
   */
  lemma CancelStopsExecution()
    ensures
      var cfg := ExampleConfig();
      var s, t := History(cfg, CancelledExecution()), History(cfg, CancelledExecution() + LateSave());
      && ActionsOk(cfg, "r", CancelledExecution() + LateSave())
      && s.stored == Some(ExecutingRun().(
           state := Cancelled,
           events := ExecutingRun().events + [Event(3, Entered(Cancelled), Cancelled, "h", 0, [])]))
      && t.stored == s.stored && t.log == s.log && t.reports == []
  {
    hide History, ActionOk, ExampleConfig, CrashedExecution, IsIdentifier;
    var cfg := ExampleConfig();
    CancelActionsOk();
    FirstExecution();
    LetterIsIdentifier('h');
    assert forall a | a in CrashedExecution()[..4] :: a in CancelledExecution() + LateSave();
    assert forall a | a in CancelledExecution() :: a in CancelledExecution() + LateSave();
    CommandTakesEffect(cfg, "r", CrashedExecution()[..4], 1, Cancelled, "h", Aware(0));
    CancelledStays(cfg, "r", CancelledExecution(), LateSave());
  }
}
