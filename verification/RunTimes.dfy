/**
 The times in the audit log: over whole histories, and over the loop of one invocation, every
 event that a runner adds carries the clock's reading that was taken for it.
 */
module RunTimes {
  import opened Wrappers
  import opened Text
  import opened WorkRuns
  import opened CheckpointValidation
  import opened WorkItems
  import opened WorkflowStages
  import opened StageTimes
  import opened RunHistories
  import opened ReadableRuns
  import opened CheckpointStore
  import opened WorkflowRunner

  /** The events that the save at `i` added carry the readings taken for them; a command's carries its own instant. */
  ghost predicate SaveIsStamped(cfg: Config, log: seq<Entry>, i: int)
    requires 0 <= i < |log|
  {
    var after := log[i].after;
    match log[i].cause
    case Ingested(_) => i == 0
    case NotReady(approved, _, times) =>
      i == 0 && |after.events| == |approved.events| + 1 && Stamped(cfg, approved, after, times, 0)
    case Stage(_, response) =>
      i > 0 && log[i - 1].after.events != [] && PassIsStamped(cfg, log[i - 1].after, after, response)
    case Commanded(target, actor, at) =>
      && i > 0 && at.Aware?
      && after.events == log[i - 1].after.events + [Event(
           |log[i - 1].after.events| + 1, Entered(target), target, Strip(actor), at.instant, [])]
  }

  lemma CommandIsStamped(cfg: Config, run: WorkRun, target: State, actor: string, at: Reading)
    requires TransitionTo(cfg.rules, run, target, actor, at, []).Ok?
    ensures at.Aware?
    ensures
      TransitionTo(cfg.rules, run, target, actor, at, []).value.events
      == run.events + [Event(|run.events| + 1, Entered(target), target, Strip(actor), at.instant, [])]
  {
    hide Invariant, IsIdentifier;
    assert TrimDetails([]) == [];
  }

  lemma LogIsStamped(cfg: Config, id: string, log: seq<Entry>, i: nat)
    requires LogOk(cfg, id, log) && i < |log|
    ensures SaveIsStamped(cfg, log, i)
  {
    hide Storable, Progress, WorkItemOk, ResponseOk, Advance, TransitionTo, TimedTransition, PassIsStamped, Stamped;
    assert EntryOk(cfg, id, log, i);
    match log[i].cause
    case Ingested(_) =>
    case NotReady(approved, summary, times) =>
      TransitionIsStamped(
        cfg, approved, Blocked, times, [("failure_code", "work_item_not_ready"), ("summary", summary)]);
    case Stage(item, response) => AdvanceIsStamped(cfg, item, log[i - 1].after, response);
    case Commanded(target, actor, at) => CommandIsStamped(cfg, log[i - 1].after, target, actor, at);
  }

  /**
   In every history: each event that a runner's save adds carries the instant of the reading that
   the clock gave for it, in order and without gaps, and the orchestrator as actor. Readings are
   passed over only in front of a failure, and then as many as the failed steps had taken.
   */
  lemma EventsCarryTheClock(cfg: Config, id: string, actions: seq<Action>)
    requires ActionsOk(cfg, id, actions)
    ensures
      var log := History(cfg, actions).log;
      forall i | 0 <= i < |log| :: SaveIsStamped(cfg, log, i)
  {
    hide LogOk, ProcessesOk, ReportsOk, RequestsOk, History, SaveIsStamped;
    HistoryKeeps(cfg, id, actions);
    var log := History(cfg, actions).log;
    forall i: nat | i < |log|
      ensures SaveIsStamped(cfg, log, i)
    {
      LogIsStamped(cfg, id, log, i);
    }
  }

  /** The checkpoint that the `i`-th save of a journey replaces. */
  function Replaced(run: WorkRun, saves: seq<WorkRun>, i: nat): WorkRun
    requires i < |saves|
  {
    if i == 0 then run else saves[i - 1]
  }

  ghost predicate SavedByPass(cfg: Config, before: WorkRun, after: WorkRun, response: Response) {
    before.events != [] && PassIsStamped(cfg, before, after, response)
  }

  /** The `i`-th save is stamped with the clock of its own pass. */
  ghost predicate JourneyIsStamped(cfg: Config, run: WorkRun, saves: seq<WorkRun>, pass: nat, respond: nat -> Response) {
    forall i: nat | i < |saves| :: SavedByPass(cfg, Replaced(run, saves, i), saves[i], respond(pass + i))
  }

  lemma JourneyGrows(
    cfg: Config, run: WorkRun, next: WorkRun, rest: seq<WorkRun>, pass: nat, respond: nat -> Response)
    requires SavedByPass(cfg, run, next, respond(pass)) && JourneyIsStamped(cfg, next, rest, pass + 1, respond)
    ensures JourneyIsStamped(cfg, run, [next] + rest, pass, respond)
  {
    hide SavedByPass;
    var saves := [next] + rest;
    forall i: nat | i < |saves|
      ensures SavedByPass(cfg, Replaced(run, saves, i), saves[i], respond(pass + i))
    {
      if i > 0 {
        assert Replaced(run, saves, i) == Replaced(next, rest, i - 1);
        assert SavedByPass(cfg, Replaced(next, rest, i - 1), rest[i - 1], respond(pass + 1 + (i - 1)));
      }
    }
  }

  /** In the loop of one invocation, every save is stamped with the clock of its own pass. */
  lemma {:induction false} LoopCarriesTheClock(
    cfg: Config, item: WorkItem, run: WorkRun, pass: nat, respond: nat -> Response, readable: bool)
    requires Sound(cfg, run) && AnswersOk(cfg.rules, respond)
    ensures JourneyIsStamped(cfg, run, Continue(cfg, item, run, pass, respond, readable).saves, pass, respond)
    decreases SavesLeft(cfg, run)
  {
    hide Valid, Accepted, Advance, ResponseOk, SavesLeft, PassIsStamped, Continue, JourneyIsStamped, DistinctDetails;
    ContinueUnfolds(cfg, item, run, pass, respond, readable);
    var saves := Continue(cfg, item, run, pass, respond, readable).saves;
    if saves == [] {
      NothingToStamp(cfg, run, pass, respond);
    } else {
      assert ResponseOk(cfg.rules, respond(pass));
      PassSpends(cfg, item, run, respond(pass));
      AdvanceIsStamped(cfg, item, run, respond(pass));
      var next := Advance(cfg, item, run, respond(pass)).value;
      var rest := Continue(cfg, item, next, pass + 1, respond, DistinctDetails(next.events)).saves;
      LoopCarriesTheClock(cfg, item, next, pass + 1, respond, DistinctDetails(next.events));
      JourneyGrows(cfg, run, next, rest, pass, respond);
    }
  }

  lemma NothingToStamp(cfg: Config, run: WorkRun, pass: nat, respond: nat -> Response)
    ensures JourneyIsStamped(cfg, run, [], pass, respond)
  {
  }
}
