/**
 From the code to the protocol: how long one invocation can be, and why whatever a sequence of
 invocations does to the store and to the provider is a history of `RunHistories`.
 */
module InvocationHistories {
  import opened Wrappers
  import opened WorkRuns
  import opened CheckpointValidation
  import opened WorkItems
  import opened WorkflowStages
  import opened OutcomeReports
  import opened RunHistories
  import opened CheckpointStore
  import opened ReadableRuns
  import opened WorkflowRunner

  // ---------------------------------------------------------------- the length of an invocation

  /** How often the loop stood in a state: each time, it called that state's port once. */
  function Visits(runs: seq<WorkRun>, s: State): nat {
    if runs == [] then 0 else (if runs[0].state == s then 1 else 0) + Visits(runs[1..], s)
  }

  /** An upper bound on the visits of a state from `run` on, this one included. */
  function VisitsLeft(cfg: Config, run: WorkRun, s: State): nat {
    match s
    case Approved => if run.state.Approved? then 1 else 0
    case Executing => if run.state.Approved? || run.state.Executing? then 1 else 0
    case Verifying => if Terminal(run.state) || run.state.PublishingDraftPr? then 0 else CyclesLeft(cfg, run) + 1
    case Remediating =>
      if Terminal(run.state) || run.state.PublishingDraftPr? then 0
      else CyclesLeft(cfg, run) + if run.state.Remediating? then 1 else 0
    case _ => if Terminal(run.state) && run.state != s then 0 else 1
  }

  lemma PassSpendsVisits(cfg: Config, run: WorkRun, next: WorkRun, s: State)
    requires Allowed(run.state, next.state) && (next.state.Remediating? ==> RemediationCount(run) < cfg.maxCycles)
    requires RemediationCount(next) == RemediationCount(run) + if next.state.Remediating? then 1 else 0
    ensures (if run.state == s then 1 else 0) + VisitsLeft(cfg, next, s) <= VisitsLeft(cfg, run, s)
  {
    hide RemediationCount;
  }

  /** The number of saves and the visits of each state are bounded, whatever the ports answer. */
  lemma {:induction false} JourneyIsBounded(
    cfg: Config, item: WorkItem, run: WorkRun, pass: nat, respond: nat -> Response, readable: bool, s: State)
    requires Sound(cfg, run) && AnswersOk(cfg.rules, respond)
    ensures
      var journey := Continue(cfg, item, run, pass, respond, readable);
      && |journey.saves| <= SavesLeft(cfg, run)
      && Visits([run] + journey.saves, s) <= VisitsLeft(cfg, run, s)
    decreases SavesLeft(cfg, run)
  {
    hide Valid, Accepted, Advance, ResponseOk, SavesLeft, VisitsLeft, RemediationCount, Allowed, DistinctDetails;
    var journey := Continue(cfg, item, run, pass, respond, readable);
    OneVisit(cfg, run, s);
    if journey.saves == [] {
      assert [run] + journey.saves == [run];
    } else {
      assert ResponseOk(cfg.rules, respond(pass));
      PassSpends(cfg, item, run, respond(pass));
      var next := Advance(cfg, item, run, respond(pass)).value;
      JourneyIsBounded(cfg, item, next, pass + 1, respond, DistinctDetails(next.events), s);
      PassSpendsVisits(cfg, run, next, s);
      assert ([run] + journey.saves)[1..] == journey.saves;
      assert journey.saves == [next] + journey.saves[1..];
    }
  }

  lemma OneVisit(cfg: Config, run: WorkRun, s: State)
    ensures Visits([run], s) <= VisitsLeft(cfg, run, s)
  {
    assert [run][1..] == [];
  }

  /**
   A fresh run saves at most `2 * limit + 4` checkpoints after its own, calls the executor and
   the publisher at most once each, the verifier at most `limit + 1` times and the remediator
   at most `limit` times.
   */
  lemma FreshRunIsBounded(cfg: Config, item: WorkItem, run: WorkRun, respond: nat -> Response)
    requires Sound(cfg, run) && Pristine(run) && Clean(run) && AnswersOk(cfg.rules, respond)
    ensures
      var saves := Continue(cfg, item, run, 0, respond, true).saves;
      && |saves| <= 2 * cfg.maxCycles + 4
      && Visits([run] + saves, Executing) <= 1
      && Visits([run] + saves, Verifying) <= cfg.maxCycles + 1
      && Visits([run] + saves, Remediating) <= cfg.maxCycles
      && Visits([run] + saves, PublishingDraftPr) <= 1
  {
    hide Continue, Visits, Valid, Accepted;
    assert run.events[..0] == [];
    assert Named(run.events, Entered(Remediating)) == [];
    JourneyIsBounded(cfg, item, run, 0, respond, true, Executing);
    JourneyIsBounded(cfg, item, run, 0, respond, true, Verifying);
    JourneyIsBounded(cfg, item, run, 0, respond, true, Remediating);
    JourneyIsBounded(cfg, item, run, 0, respond, true, PublishingDraftPr);
  }

  // ---------------------------------------------------------------- an invocation is a history

  function Perform(cfg: Config, s: System, actions: seq<Action>): System
    decreases |actions|
  {
    if actions == [] then s
    else Perform(cfg, Act(cfg, s, actions[0]), actions[1..])
  }

  lemma {:induction false} HistoryPerform(cfg: Config, before: seq<Action>, later: seq<Action>)
    ensures History(cfg, before + later) == Perform(cfg, History(cfg, before), later)
    decreases |later|
  {
    hide Act;
    if later == [] {
      assert before + later == before;
    } else {
      var grown := before + [later[0]];
      assert grown[..|grown| - 1] == before;
      assert before + later == grown + later[1..];
      HistoryPerform(cfg, grown, later[1..]);
    }
  }

  /** The notices of the reports, in order. */
  function Sent(reports: seq<Report>): seq<Notice> {
    if reports == [] then []
    else Sent(reports[..|reports| - 1]) + [reports[|reports| - 1].notice]
  }

  lemma SentAppend(reports: seq<Report>, r: Report)
    ensures Sent(reports + [r]) == Sent(reports) + [r.notice]
  {
    assert (reports + [r])[..|reports|] == reports;
  }

  function LastSave(stored: Option<WorkRun>, saves: seq<WorkRun>): Option<WorkRun> {
    if saves == [] then stored else Some(saves[|saves| - 1])
  }

  function NoticesAtEnd(cfg: Config, end: Result<WorkRun, Fault>): seq<Notice> {
    match end case Err(_) => [] case Ok(run) => NoticesOf(cfg.rules, run)
  }

  /** The saves and notices of a piece of code, seen on the system. */
  predicate Shows(s: System, t: System, saves: seq<WorkRun>, notices: seq<Notice>) {
    && t.stored == LastSave(s.stored, saves)
    && |t.log| == |s.log| + |saves|
    && Sent(t.reports) == Sent(s.reports) + notices
  }

  lemma ShowsThen(s: System, t: System, u: System, first: WorkRun, saves: seq<WorkRun>, notices: seq<Notice>)
    requires Shows(s, t, [first], []) && Shows(t, u, saves, notices)
    ensures Shows(s, u, [first] + saves, notices)
  {
    assert Sent(s.reports) + [] == Sent(s.reports);
  }

  /** The actions of one pass of the loop: an answer, then the save that it led to. */
  function PassActions(pid: nat, response: Response): seq<Action> {
    [Compute(pid, response), Commit(pid)]
  }

  lemma PassIsTwoActions(cfg: Config, s: System, pid: nat, item: WorkItem, run: WorkRun, response: Response)
    requires pid in s.processes && s.processes[pid] == Looping(item, run) && s.stored == Some(run)
    requires run.events != [] && Advance(cfg, item, run, response).Ok?
    ensures
      var next := Advance(cfg, item, run, response).value;
      var t := Act(cfg, Act(cfg, s, Compute(pid, response)), Commit(pid));
      && Shows(s, t, [next], []) && pid in t.processes
      && t.processes[pid] == if Terminal(next.state) then Reporting(next) else Looping(item, next)
  {
    hide Advance, IssuedRequests, Sent;
  }

  lemma NotifyIsReport(cfg: Config, s: System, pid: nat, run: WorkRun)
    requires pid in s.processes && s.processes[pid] == Reporting(run)
    ensures Shows(s, Act(cfg, s, Notify(pid)), [], NoticesOf(cfg.rules, run))
  {
    hide NoticeOf, Sent;
    NothingShows(s);
    if NoticeOf(cfg.rules, run).Ok? && NoticeOf(cfg.rules, run).value.Some? {
      SentAppend(s.reports, Report(pid, run, NoticeOf(cfg.rules, run).value.value));
    }
  }

  /** What the loop does from here on is done by actions of the system. */
  lemma {:induction false} LoopIsHistory(
    cfg: Config, id: string, s: System, pid: nat, item: WorkItem, run: WorkRun, pass: nat, respond: nat -> Response)
    returns (actions: seq<Action>)
    requires pid in s.processes && s.stored == Some(run)
    requires s.processes[pid] == if Terminal(run.state) then Reporting(run) else Looping(item, run)
    requires Sound(cfg, run) && DistinctDetails(run.events) && AnswersOk(cfg.rules, respond)
    ensures ActionsOk(cfg, id, actions)
    ensures
      var journey := Continue(cfg, item, run, pass, respond, true);
      Shows(s, Perform(cfg, s, actions), journey.saves, NoticesAtEnd(cfg, journey.end))
    decreases SavesLeft(cfg, run)
  {
    hide Valid, Accepted, Advance, Act, Shows, DistinctDetails, SavesLeft, NoticesOf, ResponseOk;
    assert ResponseOk(cfg.rules, respond(pass));
    if Terminal(run.state) {
      actions := [Notify(pid)];
      NotifyIsReport(cfg, s, pid, run);
      assert actions[1..] == [];
    } else if Advance(cfg, item, run, respond(pass)).Err? {
      actions := [];
      NothingShows(s);
    } else {
      var next := Advance(cfg, item, run, respond(pass)).value;
      PassSpends(cfg, item, run, respond(pass));
      AdvanceReadable(cfg, item, run, respond(pass));
      PassIsTwoActions(cfg, s, pid, item, run, respond(pass));
      var t := Act(cfg, Act(cfg, s, Compute(pid, respond(pass))), Commit(pid));
      SavedIsStored(s, t, next);
      var rest := LoopIsHistory(cfg, id, t, pid, item, next, pass + 1, respond);
      actions := PassActions(pid, respond(pass)) + rest;
      PerformPass(cfg, s, pid, respond(pass), rest);
      var journey := Continue(cfg, item, next, pass + 1, respond, true);
      ShowsThen(s, t, Perform(cfg, t, rest), next, journey.saves, NoticesAtEnd(cfg, journey.end));
    }
  }

  lemma NothingShows(s: System)
    ensures Shows(s, s, [], [])
  {
    hide Sent;
    assert Sent(s.reports) + [] == Sent(s.reports);
  }

  lemma SavedIsStored(s: System, t: System, next: WorkRun)
    requires Shows(s, t, [next], [])
    ensures t.stored == Some(next)
  {
  }

  lemma PerformPass(cfg: Config, s: System, pid: nat, response: Response, rest: seq<Action>)
    ensures
      Perform(cfg, s, PassActions(pid, response) + rest)
      == Perform(cfg, Act(cfg, Act(cfg, s, Compute(pid, response)), Commit(pid)), rest)
  {
    hide Act;
    var all := PassActions(pid, response) + rest;
    assert all[1..][1..] == rest;
  }

  /** The other inputs of an invocation came through their constructors, and it is for this run. */
  ghost predicate CallOk(cfg: Config, id: string, inputs: Inputs) {
    && InputsOk(cfg, inputs) && inputs.approved.runId == id
    && (inputs.item.Some? ==> WorkItemOk(cfg.rules, inputs.item.value))
  }

  /** The start of an invocation that gets as far as its load. */
  function StartOf(pid: nat, inputs: Inputs): Action
    requires inputs.item.Some? && inputs.readiness.Some?
  {
    Start(pid, inputs.approved, inputs.item.value, inputs.readiness.value, inputs.times)
  }

  lemma SavingStarts(cfg: Config, s: System, pid: nat, inputs: Inputs, cause: Cause, first: WorkRun)
    requires inputs.item.Some? && inputs.readiness.Some? && pid !in s.processes && s.stored == None
    requires StartProcess(cfg, None, inputs.approved, inputs.item.value, inputs.readiness.value, inputs.times)
             == Saving(cause, None, first)
    requires if Terminal(first.state) then cause.NotReady? else cause == Ingested(inputs.item.value)
    ensures
      var t := Act(cfg, Act(cfg, s, StartOf(pid, inputs)), Commit(pid));
      && Shows(s, t, [first], []) && t.stored == Some(first)
      && pid in t.processes
      && t.processes[pid] == if Terminal(first.state) then Reporting(first) else Looping(inputs.item.value, first)
  {
    hide StartProcess, Sent;
  }

  /** A start that has something to save at once: the approved run, or the blocked one. */
  lemma SavingStartIsHistory(
    cfg: Config, id: string, s: System, pid: nat, inputs: Inputs, cause: Cause, first: WorkRun)
    returns (actions: seq<Action>)
    requires CallOk(cfg, id, inputs) && inputs.item.Some? && inputs.readiness.Some?
    requires pid !in s.processes && s.stored == None
    requires StartProcess(cfg, None, inputs.approved, inputs.item.value, inputs.readiness.value, inputs.times)
             == Saving(cause, None, first)
    requires Sound(cfg, first) && DistinctDetails(first.events)
    requires cause == if Terminal(first.state) then cause else Ingested(inputs.item.value)
    requires Terminal(first.state) ==> cause.NotReady?
    ensures ActionsOk(cfg, id, actions)
    ensures
      var journey := Continue(cfg, inputs.item.value, first, 0, inputs.respond, true);
      Shows(s, Perform(cfg, s, actions), [first] + journey.saves, NoticesAtEnd(cfg, journey.end))
  {
    hide Valid, Accepted, StartProcess, Shows, DistinctDetails, Built, NoticesOf, Continue, AnswersOk, Act;
    var start := StartOf(pid, inputs);
    var t := Act(cfg, Act(cfg, s, start), Commit(pid));
    SavingStarts(cfg, s, pid, inputs, cause, first);
    var rest := LoopIsHistory(cfg, id, t, pid, inputs.item.value, first, 0, inputs.respond);
    actions := [start, Commit(pid)] + rest;
    assert actions[1..][1..] == rest;
    var journey := Continue(cfg, inputs.item.value, first, 0, inputs.respond, true);
    ShowsThen(s, t, Perform(cfg, t, rest), first, journey.saves, NoticesAtEnd(cfg, journey.end));
  }

  lemma QuietStart(cfg: Config, id: string, s: System)
    ensures ActionsOk(cfg, id, []) && Shows(s, Perform(cfg, s, []), [], [])
  {
    NothingShows(s);
  }

  lemma ResumeIsHistory(cfg: Config, id: string, s: System, pid: nat, inputs: Inputs, checkpoint: WorkRun)
    returns (actions: seq<Action>)
    requires CallOk(cfg, id, inputs) && inputs.item.Some? && inputs.readiness.Some?
    requires pid !in s.processes && s.stored == Some(checkpoint)
    requires StartProcess(
               cfg, s.stored, inputs.approved, inputs.item.value, inputs.readiness.value, inputs.times)
             == Looping(inputs.item.value, checkpoint)
    requires Sound(cfg, checkpoint) && DistinctDetails(checkpoint.events) && !Terminal(checkpoint.state)
    ensures ActionsOk(cfg, id, actions)
    ensures
      var journey := Continue(cfg, inputs.item.value, checkpoint, 0, inputs.respond, true);
      Shows(s, Perform(cfg, s, actions), journey.saves, NoticesAtEnd(cfg, journey.end))
  {
    hide Valid, Accepted, StartProcess, Sent, DistinctDetails, Built, Continue;
    var start := StartOf(pid, inputs);
    var t := Act(cfg, s, start);
    var rest := LoopIsHistory(cfg, id, t, pid, inputs.item.value, checkpoint, 0, inputs.respond);
    actions := [start] + rest;
    assert actions[1..] == rest;
  }

  /** What the store holds in a history, seen from an invocation that loads it. */
  lemma StoredIsLoadable(cfg: Config, id: string, s: System)
    requires Inv(cfg, id, s) && s.stored.Some?
    ensures Sound(cfg, s.stored.value) && DistinctDetails(s.stored.value.events)
  {
    hide Valid, Accepted, Clean, ProcessesOk, RequestsOk, ReportsOk, DistinctDetails, CanonicalNames;
    LogIsReadable(cfg, id, s.log, |s.log| - 1);
    LastIsInLog(s.log);
    InLogIsStorable(cfg, id, s.log, s.stored.value);
  }

  lemma BlockedStarts(
    cfg: Config, approved: WorkRun, item: WorkItem, summary: string, times: seq<Reading>, blocked: WorkRun)
    requires Pristine(approved) && Matches(approved, item) && BlockUnready(cfg, approved, summary, times) == Ok(blocked)
    ensures StartProcess(cfg, None, approved, item, Unready(summary), times)
         == Saving(NotReady(approved, summary, times), None, blocked)
  {
    hide BlockUnready, Accepted, Matches;
  }

  lemma BlockedIsReadable(cfg: Config, approved: WorkRun, summary: string, times: seq<Reading>)
    requires Built(cfg.rules, approved) && Pristine(approved) && BlockUnready(cfg, approved, summary, times).Ok?
    ensures
      var blocked := BlockUnready(cfg, approved, summary, times).value;
      Sound(cfg, blocked) && blocked.state.Blocked? && DistinctDetails(blocked.events)
  {
    hide Valid, Accepted, Clean, DistinctDetails, CanonicalNames, Built, TimedTransition, RemediationCount;
    var details := [("failure_code", "work_item_not_ready"), ("summary", summary)];
    ValidationIsComplete(cfg.rules, approved);
    PristineIsReadable(approved);
    TransitionProgress(cfg, approved, Blocked, times, details);
    TimedReadable(cfg, approved, Blocked, times, details);
  }

  lemma BlockedIsHistory(cfg: Config, id: string, s: System, pid: nat, inputs: Inputs)
    returns (actions: seq<Action>)
    requires CallOk(cfg, id, inputs) && inputs.item.Some? && inputs.readiness.Some? && inputs.readiness.value.Unready?
    requires Pristine(inputs.approved) && Matches(inputs.approved, inputs.item.value)
    requires pid !in s.processes
    ensures ActionsOk(cfg, id, actions)
    ensures
      var invocation := InvokeUnready(
        cfg, Ok(s.stored), inputs.approved, inputs.readiness.value.summary, inputs.times, inputs.delivered);
      Shows(s, Perform(cfg, s, actions), invocation.saves, invocation.notices)
  {
    hide Sound, Shows, Perform, DistinctDetails, Built, NoticesOf, ReportEnd, BlockUnready, StartProcess, Matches;
    var summary := inputs.readiness.value.summary;
    actions := [];
    QuietStart(cfg, id, s);
    if s.stored.None? && BlockUnready(cfg, inputs.approved, summary, inputs.times).Ok? {
      var blocked := BlockUnready(cfg, inputs.approved, summary, inputs.times).value;
      BlockedIsReadable(cfg, inputs.approved, summary, inputs.times);
      BlockedStarts(cfg, inputs.approved, inputs.item.value, summary, inputs.times, blocked);
      actions := SavingStartIsHistory(
        cfg, id, s, pid, inputs, NotReady(inputs.approved, summary, inputs.times), blocked);
      assert [blocked] + [] == [blocked];
    }
  }

  lemma IngestedIsHistory(cfg: Config, id: string, s: System, pid: nat, inputs: Inputs)
    returns (actions: seq<Action>)
    requires Inv(cfg, id, s)
    requires CallOk(cfg, id, inputs) && inputs.item.Some? && inputs.readiness == Some(Ready)
    requires Pristine(inputs.approved) && Matches(inputs.approved, inputs.item.value)
    requires pid !in s.processes && (s.stored.Some? ==> Valid(cfg.rules, s.stored.value))
    ensures ActionsOk(cfg, id, actions)
    ensures
      var invocation := Invoke(cfg, Ok(s.stored), inputs);
      Shows(s, Perform(cfg, s, actions), invocation.saves, invocation.notices)
  {
    hide Valid, Accepted, Clean, Shows, Perform, DistinctDetails, CanonicalNames, Built, NoticesOf, ReportEnd, Inv;
    hide Continue;
    hide AnswersOk, WorkItemOk;
    ValidationIsComplete(cfg.rules, inputs.approved);
    PristineIsReadable(inputs.approved);
    QuietStart(cfg, id, s);
    actions := [];
    if s.stored.None? {
      actions := SavingStartIsHistory(cfg, id, s, pid, inputs, Ingested(inputs.item.value), inputs.approved);
    } else {
      var checkpoint := s.stored.value;
      StoredIsLoadable(cfg, id, s);
      if Continues(checkpoint, inputs.approved) && !Terminal(checkpoint.state) {
        actions := ResumeIsHistory(cfg, id, s, pid, inputs, checkpoint);
      }
    }
  }

  /**
   Whatever an invocation saves and sends, on a store that holds what a history has stored, is
   saved and sent by a continuation of that history. So everything proved of histories holds of
   every sequence of invocations of the code.
   */
  lemma InvocationIsHistory(cfg: Config, id: string, before: seq<Action>, pid: nat, inputs: Inputs)
    returns (later: seq<Action>)
    requires ActionsOk(cfg, id, before) && CallOk(cfg, id, inputs) && pid !in History(cfg, before).processes
    requires History(cfg, before).stored.Some? ==> Valid(cfg.rules, History(cfg, before).stored.value)
    ensures ActionsOk(cfg, id, before + later)
    ensures
      var s := History(cfg, before);
      var invocation := Invoke(cfg, Ok(s.stored), inputs);
      Shows(s, History(cfg, before + later), invocation.saves, invocation.notices)
  {
    hide Valid, Accepted, History, Shows, Perform, Built, Inv, Continue, AnswersOk, ActionOk, WorkItemOk, NoticesOf, ReportEnd;
    hide StartProcess, Continues, Clean;
    var s := History(cfg, before);
    HistoryKeeps(cfg, id, before);
    ValidationIsComplete(cfg.rules, inputs.approved);
    QuietStart(cfg, id, s);
    later := [];
    if Pristine(inputs.approved) && inputs.item.Some? && inputs.readiness.Some? {
      if Matches(inputs.approved, inputs.item.value) {
        if inputs.readiness.value.Unready? {
          later := BlockedIsHistory(cfg, id, s, pid, inputs);
        } else {
          later := IngestedIsHistory(cfg, id, s, pid, inputs);
        }
      }
    }
    HistoryPerform(cfg, before, later);
  }
}
