/** The `cancel` and `retry` commands on whole histories: exactly when they take effect, and what they leave. */
module RunCommands {
  import opened Wrappers
  import opened Text
  import opened WorkRuns
  import opened CheckpointValidation
  import opened WorkItems
  import opened WorkflowStages
  import opened RunHistories

  predicate Unfinished(s: State) {
    s.Approved? || s.Executing? || s.Verifying? || s.Remediating? || s.PublishingDraftPr?
  }

  /** What a caller can check before giving a command, for `cancel` and `retry`. */
  predicate CommandApplies(stored: Option<WorkRun>, target: State, actor: string, at: Reading) {
    && stored.Some? && stored.value.events != []
    && (if target.Cancelled? then Unfinished(stored.value.state)
        else target.Verifying? && (stored.value.state.Executing? || stored.value.state.Remediating?))
    && IsIdentifier(Strip(actor))
    && at.Aware? && stored.value.events[|stored.value.events| - 1].at <= at.instant
  }

  /** The stored run with the one event of the command added. */
  function Commanded(run: WorkRun, target: State, actor: string, at: Reading): WorkRun
    requires at.Aware?
  {
    run.(
      state := target,
      events := run.events + [Event(|run.events| + 1, Entered(target), target, Strip(actor), at.instant, [])])
  }

  lemma CommandTransition(cfg: Config, run: WorkRun, target: State, actor: string, at: Reading)
    requires Valid(cfg.rules, run) && (target.Cancelled? || target.Verifying?)
    ensures
      var result := TransitionTo(cfg.rules, run, target, actor, at, []);
      && (result.Ok? <==> CommandApplies(Some(run), target, actor, at))
      && (result.Ok? ==> result.value == Commanded(run, target, actor, at))
  {
    hide Invariant, EventsProducible, CorrelationOk, ArtifactsOk, IsIdentifier, Allowed, TransitionTo;
    CommandStates(run.state);
    TransitionEffect(cfg.rules, run, target, actor, at, []);
    ValidHasEvents(cfg.rules, run);
    assert TrimDetails([]) == [];
  }

  lemma CommandStates(from: State)
    ensures Allowed(from, Cancelled) <==> Unfinished(from)
    ensures Allowed(from, Verifying) <==> from.Executing? || from.Remediating?
  {
  }

  lemma ValidHasEvents(rules: Rules, run: WorkRun)
    requires Valid(rules, run)
    ensures run.events != []
  {
  }

  lemma HistoryTwo(cfg: Config, actions: seq<Action>, first: Action, second: Action)
    ensures History(cfg, actions + [first, second]) == Act(cfg, Act(cfg, History(cfg, actions), first), second)
  {
    hide Act;
    var all := actions + [first, second];
    assert all[..|all| - 1] == actions + [first];
    assert (actions + [first])[..|actions|] == actions;
  }

  /**
   After every history, a command that is given and saves with nobody in between adds one save
   exactly when an unfinished run is stored (for `retry`, one being executed or corrected), the
   actor is an identifier and the clock has not run backwards; what is stored then is the former
   run, moved to the target by one event of that actor at that instant. Otherwise the command
   changes nothing.
   */
  lemma CommandTakesEffect(
    cfg: Config, id: string, actions: seq<Action>, pid: nat, target: State, actor: string, at: Reading)
    requires ActionsOk(cfg, id, actions) && pid !in History(cfg, actions).processes
    ensures
      var s := History(cfg, actions);
      var t := History(cfg, actions + [Command(pid, target, actor, at), Commit(pid)]);
      && t.reports == s.reports && t.requests == s.requests
      && if CommandApplies(s.stored, target, actor, at)
         then
           && t.stored == Some(Commanded(s.stored.value, target, actor, at))
           && |t.log| == |s.log| + 1 && s.log <= t.log && t.log[|s.log|].after == t.stored.value
         else t.stored == s.stored && t.log == s.log
  {
    hide History, LogOk, ProcessesOk, ReportsOk, RequestsOk, TransitionTo, CommandApplies, Commanded, ActionOk;
    var s := History(cfg, actions);
    HistoryKeeps(cfg, id, actions);
    HistoryTwo(cfg, actions, Command(pid, target, actor, at), Commit(pid));
    if s.stored.Some? {
      LastIsInLog(s.log);
      InLogIsStorable(cfg, id, s.log, s.stored.value);
      if target.Cancelled? || target.Verifying? {
        CommandTransition(cfg, s.stored.value, target, actor, at);
      }
    }
    OtherTargets(s.stored, target, actor, at);
  }

  lemma OtherTargets(stored: Option<WorkRun>, target: State, actor: string, at: Reading)
    ensures stored.None? || !(target.Cancelled? || target.Verifying?) ==> !CommandApplies(stored, target, actor, at)
    ensures CommandApplies(stored, target, actor, at) ==> at.Aware?
  {
  }

  /**
   A cancelled run stays cancelled: whatever was under way when the command was saved, and
   whatever is started afterwards, no later save succeeds and nothing is reported.
   */
  lemma {:induction false} CancelledStays(cfg: Config, id: string, actions: seq<Action>, later: seq<Action>)
    requires ActionsOk(cfg, id, actions + later)
    requires History(cfg, actions).stored.Some? && History(cfg, actions).stored.value.state.Cancelled?
    ensures
      var s, t := History(cfg, actions), History(cfg, actions + later);
      t.stored == s.stored && t.log == s.log && t.reports == []
    decreases |later|
  {
    hide ActionOk, Act, Inv;
    var all := actions + later;
    if later == [] {
      assert all == actions;
      HistoryKeeps(cfg, id, actions);
      CancelledIsUnreported(cfg, id, History(cfg, actions));
    } else {
      var front := later[..|later| - 1];
      assert all[..|all| - 1] == actions + front;
      assert forall a | a in actions + front :: a in all;
      CancelledStays(cfg, id, actions, front);
      HistoryKeeps(cfg, id, actions + front);
      ActKeepsCancelled(cfg, id, History(cfg, actions + front), all[|all| - 1]);
    }
  }

  lemma CancelledIsUnreported(cfg: Config, id: string, s: System)
    requires Inv(cfg, id, s) && s.stored.Some? && s.stored.value.state.Cancelled?
    ensures s.reports == [] && forall pid | pid in s.processes :: !s.processes[pid].Reporting?
  {
    hide LogOk, RequestsOk, ProcessesOk;
    RunnersDoNotCancel(cfg, id, s.log);
    forall pid | pid in s.processes
      ensures !s.processes[pid].Reporting?
    {
      OneProcess(cfg, id, s, pid);
    }
  }

  lemma OneProcess(cfg: Config, id: string, s: System, pid: nat)
    requires ProcessesOk(cfg, id, s) && pid in s.processes
    ensures ProcessOk(cfg, id, s, pid)
  {
  }

  lemma RunnersDoNotCancel(cfg: Config, id: string, log: seq<Entry>)
    requires LogOk(cfg, id, log) && log != [] && log[|log| - 1].after.state.Cancelled?
    ensures log[|log| - 1].cause.Commanded?
  {
    hide Valid, Accepted, Clean, Advance, Progress, WorkItemOk, ResponseOk;
    var i := |log| - 1;
    assert EntryOk(cfg, id, log, i);
    if log[i].cause.Stage? {
      assert EntryOk(cfg, id, log, i - 1);
      AdvanceProgress(cfg, log[i].cause.item, log[i - 1].after, log[i].cause.response);
    }
  }

  lemma ActKeepsCancelled(cfg: Config, id: string, s: System, a: Action)
    requires Inv(cfg, id, s) && s.stored.Some? && s.stored.value.state.Cancelled? && s.reports == []
    ensures Act(cfg, s, a).stored == s.stored && Act(cfg, s, a).log == s.log && Act(cfg, s, a).reports == []
  {
    hide Storable, LogOk, RequestsOk, Advance, TransitionTo, TimedTransition, Accepted, Matches, ProcessesOk;
    CancelledIsUnreported(cfg, id, s);
    if a.Commit? && a.pid in s.processes && s.processes[a.pid].Saving? {
      OneProcess(cfg, id, s, a.pid);
      assert s.log != [];
    }
  }
}
