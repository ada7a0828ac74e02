/**
 What a stored checkpoint must look like before a runner resumes it, and which runs those are:
 the ones that the aggregate's own operations can build, plus two harmless families.
 */
module CheckpointValidation {
  import opened Wrappers
  import opened Text
  import opened WorkRuns

  // ---------------------------------------------------------------- the validator

  /** The walk starts from the approved state, whatever state the first event carries. */
  function Previous(events: seq<Event>, i: int): State
    requires 0 < i < |events|
  {
    if i == 1 then Approved else events[i - 1].state
  }

  predicate Legal(events: seq<Event>, i: int)
    requires 0 < i < |events|
  {
    var e := events[i];
    if e.state == Previous(events, i)
    then e.name == ArtifactAttached || (e.name == DraftPrRecorded && e.state.PublishingDraftPr?)
    else Allowed(Previous(events, i), e.state) && e.name == Entered(e.state)
  }

  predicate WalkOk(events: seq<Event>) {
    forall i | 0 < i < |events| :: Legal(events, i)
  }

  function DetailsOf(events: seq<Event>): (r: seq<Details>)
    ensures |r| == |events|
    ensures forall i | 0 <= i < |r| :: r[i] == events[i].details
  {
    seq(|events|, i requires 0 <= i < |events| => events[i].details)
  }

  function Recorded(artifacts: seq<Artifact>): (r: seq<Details>)
    ensures |r| == |artifacts|
    ensures forall i | 0 <= i < |r| :: r[i] == ArtifactDetails(artifacts[i])
  {
    seq(|artifacts|, i requires 0 <= i < |artifacts| => ArtifactDetails(artifacts[i]))
  }

  predicate DraftPrLogged(run: WorkRun, recorded: seq<Event>) {
    match run.draftPrUrl
    case None => recorded == []
    case Some(url) => |recorded| == 1 && Lookup(recorded[0].details, "draft_pr_url") == Some(url)
  }

  /** The checkpoints that the validator lets through. */
  predicate Accepted(run: WorkRun)
    requires run.events != []
  {
    && WalkOk(run.events)
    && DetailsOf(Named(run.events[1..], ArtifactAttached)) == Recorded(run.artifacts)
    && DraftPrLogged(run, Named(run.events[1..], DraftPrRecorded))
  }

  lemma NamedNothing(events: seq<Event>)
    requires events != []
    ensures Named(events[1..1], ArtifactAttached) == [] && Named(events[1..1], DraftPrRecorded) == []
  {
    assert events[1..1] == [];
  }

  /** Collects the artifact and Draft PR events, or raises at the first illegal event. */
  method WalkCheckpointHistory(run: WorkRun) returns (r: Result<(seq<Event>, seq<Event>), Fault>)
    requires run.events != []
    ensures r.Ok? <==> WalkOk(run.events)
    ensures r.Err? ==> r.error == IntegrityFault
    ensures r.Ok? ==>
              r.value == (Named(run.events[1..], ArtifactAttached), Named(run.events[1..], DraftPrRecorded))
  {
    hide Allowed, Lookup, Named;
    NamedNothing(run.events);
    var previousState := Approved;
    var artifactEvents: seq<Event> := [];
    var draftPrEvents: seq<Event> := [];
    for i := 1 to |run.events|
      invariant i < |run.events| ==> previousState == Previous(run.events, i)
      invariant forall j | 0 < j < i :: Legal(run.events, j)
      invariant artifactEvents == Named(run.events[1..i], ArtifactAttached)
      invariant draftPrEvents == Named(run.events[1..i], DraftPrRecorded)
    {
      var event := run.events[i];
      assert run.events[1..i + 1] == run.events[1..i] + [event];
      NamedAppend(run.events[1..i], event, ArtifactAttached);
      NamedAppend(run.events[1..i], event, DraftPrRecorded);
      assert i + 1 < |run.events| ==> Previous(run.events, i + 1) == event.state;
      if event.state == previousState {
        if event.name == ArtifactAttached {
          artifactEvents := artifactEvents + [event];
        } else if event.name == DraftPrRecorded && event.state.PublishingDraftPr? {
          draftPrEvents := draftPrEvents + [event];
        } else {
          assert !Legal(run.events, i);
          return Err(IntegrityFault);
        }
      } else if !Allowed(previousState, event.state) {
        assert !Legal(run.events, i);
        return Err(IntegrityFault);
      } else if event.name != Entered(event.state) {
        assert !Legal(run.events, i);
        return Err(IntegrityFault);
      }
      previousState := event.state;
    }
    assert run.events[1..|run.events|] == run.events[1..];
    return Ok((artifactEvents, draftPrEvents));
  }

  method ValidateCheckpoint(run: WorkRun) returns (r: Result<(), Fault>)
    requires run.events != []
    ensures r == if Accepted(run) then Ok(()) else Err(IntegrityFault)
  {
    var walked :- WalkCheckpointHistory(run);
    var artifactEvents, draftPrEvents := walked.0, walked.1;
    if DetailsOf(artifactEvents) != Recorded(run.artifacts) {
      return Err(IntegrityFault);
    }
    if run.draftPrUrl.None? && draftPrEvents != [] {
      return Err(IntegrityFault);
    }
    if run.draftPrUrl.Some?
       && (|draftPrEvents| != 1 || Lookup(draftPrEvents[0].details, "draft_pr_url") != run.draftPrUrl) {
      return Err(IntegrityFault);
    }
    return Ok(());
  }

  // ---------------------------------------------------------------- runs built by operations

  /** One call of an operation of the aggregate. */
  datatype Step =
    | Transition(target: State, actor: string, at: Reading, details: Details)
    | Attach(artifact: Artifact, actor: string, at: Reading)
    | Record(url: string, actor: string, at: Reading)

  datatype Origin = Origin(runId: string, correlation: Correlation, actor: string, at: Reading)

  function Apply(rules: Rules, run: WorkRun, step: Step): Result<WorkRun, Fault> {
    match step
    case Transition(target, actor, at, details) => TransitionTo(rules, run, target, actor, at, details)
    case Attach(artifact, actor, at) => AttachArtifact(rules, run, artifact, actor, at)
    case Record(url, actor, at) => RecordDraftPr(rules, run, url, actor, at)
  }

  function Build(rules: Rules, origin: Origin, steps: seq<Step>): Result<WorkRun, Fault> {
    if steps == [] then Approve(rules, origin.runId, origin.correlation, origin.actor, origin.at)
    else
      var run :- Build(rules, origin, steps[..|steps| - 1]);
      Apply(rules, run, steps[|steps| - 1])
  }

  /** The arguments are objects that exist, so they have passed their own constructors. */
  predicate ArgumentsOk(rules: Rules, origin: Origin, steps: seq<Step>) {
    && CorrelationOk(rules, origin.correlation)
    && forall s | s in steps && s.Attach? :: ArtifactOk(rules, s.artifact)
  }

  ghost predicate BuiltBy(rules: Rules, run: WorkRun, origin: Origin, steps: seq<Step>) {
    ArgumentsOk(rules, origin, steps) && Build(rules, origin, steps) == Ok(run)
  }

  ghost predicate Built(rules: Rules, run: WorkRun) {
    exists origin, steps :: BuiltBy(rules, run, origin, steps)
  }

  // ---------------------------------------------------------------- every built run is accepted

  /** The two things that the operations never write but the validator does not look for. */
  predicate Clean(run: WorkRun)
    requires run.events != []
  {
    && OpensWithApproval(run)
    && forall i | 0 < i < |run.events| :: CleanEvent(run, i)
  }

  predicate CleanEvent(run: WorkRun, i: int)
    requires 0 <= i < |run.events|
  {
    var e := run.events[i];
    && (e.name == ArtifactAttached ==> !Terminal(e.state))
    && PlainAt(run, i)
  }

  lemma GrowWalk(run: WorkRun, e: Event)
    requires run.events != [] && WalkOk(run.events) && run.events[|run.events| - 1].state == run.state
    requires run.events[0].state.Approved?
    requires if e.state == run.state
             then e.name == ArtifactAttached || (e.name == DraftPrRecorded && e.state.PublishingDraftPr?)
             else Allowed(run.state, e.state) && e.name == Entered(e.state)
    ensures WalkOk(run.events + [e])
  {
    var all := run.events + [e];
    assert forall i | 0 < i < |run.events| :: Legal(run.events, i) ==> Legal(all, i);
    assert Previous(all, |run.events|) == run.state;
  }

  lemma GrowLog(run: WorkRun, e: Event, artifact: Artifact)
    requires run.events != [] && DetailsOf(Named(run.events[1..], ArtifactAttached)) == Recorded(run.artifacts)
    requires e.name == ArtifactAttached && e.details == ArtifactDetails(artifact)
    ensures DetailsOf(Named((run.events + [e])[1..], ArtifactAttached)) == Recorded(run.artifacts + [artifact])
  {
    assert (run.events + [e])[1..] == run.events[1..] + [e];
    NamedAppend(run.events[1..], e, ArtifactAttached);
  }

  lemma GrowUnlogged(run: WorkRun, e: Event, name: EventName)
    requires run.events != [] && e.name != name
    ensures Named((run.events + [e])[1..], name) == Named(run.events[1..], name)
  {
    assert (run.events + [e])[1..] == run.events[1..] + [e];
    NamedAppend(run.events[1..], e, name);
  }

  lemma GrowClean(run: WorkRun, e: Event, grown: WorkRun)
    requires run.events != []
    requires grown.events == run.events + [e] && (run.draftPrUrl.Some? ==> grown.draftPrUrl == run.draftPrUrl)
    requires CleanEvent(grown, |run.events|)
    ensures Clean(run) ==> Clean(grown)
  {
    assert forall i | 0 < i < |run.events| :: CleanEvent(run, i) ==> CleanEvent(grown, i);
  }

  lemma ApplyKeeps(rules: Rules, run: WorkRun, step: Step)
    requires Valid(rules, run) && Accepted(run) && Clean(run)
    requires step.Attach? ==> ArtifactOk(rules, step.artifact)
    requires Apply(rules, run, step).Ok?
    ensures
      var grown := Apply(rules, run, step).value;
      Valid(rules, grown) && Extends(run, grown) && Accepted(grown) && Clean(grown)
  {
    match step {
      case Transition(target, actor, at, details) => TransitionKeeps(rules, run, target, actor, at, details);
      case Attach(artifact, actor, at) => AttachKeeps(rules, run, artifact, actor, at);
      case Record(url, actor, at) => RecordKeeps(rules, run, url, actor, at);
    }
  }

  lemma TransitionKeeps(rules: Rules, run: WorkRun, target: State, actor: string, at: Reading, details: Details)
    requires Valid(rules, run) && Accepted(run)
    requires TransitionTo(rules, run, target, actor, at, details).Ok?
    ensures
      var grown := TransitionTo(rules, run, target, actor, at, details).value;
      && Valid(rules, grown) && Extends(run, grown) && Accepted(grown)
      && (Clean(run) ==> Clean(grown))
  {
    hide CorrelationOk, Producible, Accepted, Lookup;
    TransitionEffect(rules, run, target, actor, at, details);
    var event := MakeEvent(rules, |run.events| + 1, Entered(target), target, actor, at, details);
    AcceptsTransition(run, event.value);
    GrowClean(run, event.value, run.(state := target, events := run.events + [event.value]));
  }

  lemma AcceptsTransition(run: WorkRun, e: Event)
    requires run.events != [] && Accepted(run) && run.events[|run.events| - 1].state == run.state
    requires run.events[0].state.Approved?
    requires e.name == Entered(e.state) && Allowed(run.state, e.state)
    ensures
      var grown := run.(state := e.state, events := run.events + [e]);
      Accepted(grown) && CleanEvent(grown, |run.events|)
  {
    GrowWalk(run, e);
    GrowUnlogged(run, e, ArtifactAttached);
    GrowUnlogged(run, e, DraftPrRecorded);
  }

  lemma AttachKeeps(rules: Rules, run: WorkRun, artifact: Artifact, actor: string, at: Reading)
    requires Valid(rules, run) && Accepted(run) && ArtifactOk(rules, artifact)
    requires AttachArtifact(rules, run, artifact, actor, at).Ok?
    ensures
      var grown := AttachArtifact(rules, run, artifact, actor, at).value;
      && Valid(rules, grown) && Extends(run, grown) && Accepted(grown)
      && (Clean(run) ==> Clean(grown))
  {
    AttachEffect(rules, run, artifact, actor, at);
    ArtifactDetailsAreTrimmed(rules, artifact);
    var event := MakeEvent(
      rules, |run.events| + 1, ArtifactAttached, run.state, actor, at, ArtifactDetails(artifact));
    AcceptsAttach(run, event.value, artifact);
    GrowClean(
      run, event.value, run.(events := run.events + [event.value], artifacts := run.artifacts + [artifact]));
  }

  lemma AcceptsAttach(run: WorkRun, e: Event, artifact: Artifact)
    requires run.events != [] && Accepted(run) && run.events[|run.events| - 1].state == run.state
    requires run.events[0].state.Approved?
    requires e.name == ArtifactAttached && e.state == run.state && e.details == ArtifactDetails(artifact)
    ensures
      var grown := run.(events := run.events + [e], artifacts := run.artifacts + [artifact]);
      Accepted(grown) && (!Terminal(run.state) ==> CleanEvent(grown, |run.events|))
  {
    GrowWalk(run, e);
    GrowLog(run, e, artifact);
    GrowUnlogged(run, e, DraftPrRecorded);
  }

  lemma RecordKeeps(rules: Rules, run: WorkRun, url: string, actor: string, at: Reading)
    requires Valid(rules, run) && Accepted(run)
    requires RecordDraftPr(rules, run, url, actor, at).Ok?
    ensures
      var grown := RecordDraftPr(rules, run, url, actor, at).value;
      && Valid(rules, grown) && Extends(run, grown) && Accepted(grown)
      && (Clean(run) ==> Clean(grown))
  {
    hide Accepted, Lookup, CorrelationOk, ArtifactsOk, DraftPrOk, Producible;
    RecordEffect(rules, run, url, actor, at);
    var event := MakeEvent(
      rules, |run.events| + 1, DraftPrRecorded, run.state, actor, at, [("draft_pr_url", Strip(url))]);
    AcceptsRecord(run, event.value, Strip(url));
    GrowClean(run, event.value, run.(events := run.events + [event.value], draftPrUrl := Some(Strip(url))));
  }

  lemma AcceptsRecord(run: WorkRun, e: Event, url: string)
    requires run.events != [] && Accepted(run) && run.events[|run.events| - 1].state == run.state
    requires run.events[0].state.Approved? && run.draftPrUrl.None?
    requires e.name == DraftPrRecorded && e.state == run.state && run.state.PublishingDraftPr?
    requires e.details == [("draft_pr_url", url)]
    ensures
      var grown := run.(events := run.events + [e], draftPrUrl := Some(url));
      Accepted(grown) && CleanEvent(grown, |run.events|)
  {
    GrowWalk(run, e);
    GrowUnlogged(run, e, ArtifactAttached);
    assert (run.events + [e])[1..] == run.events[1..] + [e];
    NamedAppend(run.events[1..], e, DraftPrRecorded);
    LookupSingle("draft_pr_url", url);
  }

  /** Complete: whatever sequence of operations built a run, the validator accepts it. */
  lemma {:induction false} BuiltIsAccepted(rules: Rules, run: WorkRun, origin: Origin, steps: seq<Step>)
    requires BuiltBy(rules, run, origin, steps)
    ensures Valid(rules, run) && Accepted(run) && Clean(run)
    decreases |steps|
  {
    if steps == [] {
      ApproveEffect(rules, origin.runId, origin.correlation, origin.actor, origin.at);
      assert run.events[1..] == [];
    } else {
      var front := steps[..|steps| - 1];
      var before := Build(rules, origin, front).value;
      BuiltIsAccepted(rules, before, origin, front);
      ApplyKeeps(rules, before, steps[|steps| - 1]);
    }
  }

  // ---------------------------------------------------------------- every accepted, clean run can be built

  /** An event with distinct keys is what its constructor makes of its own fields. */
  lemma Reproduce(rules: Rules, e: Event)
    requires Producible(rules, e) && DistinctKeys(e.details)
    ensures MakeEvent(rules, e.sequence, e.name, e.state, e.actor, Aware(e.at), e.details) == Ok(e)
  {
    var raw: Details :| MakeEvent(rules, e.sequence, e.name, e.state, e.actor, Aware(e.at), raw) == Ok(e);
    forall i | 0 <= i < |raw|
      ensures DetailOk(rules, e.details[i]) && TrimDetails(e.details)[i] == e.details[i]
    {
      assert DetailOk(rules, raw[i]);
      StripStable(raw[i].0);
      StripStable(raw[i].1);
    }
    assert TrimDetails(e.details) == e.details;
  }

  lemma NamedPrefix(events: seq<Event>, n: nat, name: EventName)
    requires n <= |events|
    ensures Named(events[..n], name) <= Named(events, name)
  {
    if n < |events| {
      var front := events[..|events| - 1];
      NamedPrefix(front, n, name);
      assert front[..n] == events[..n];
    } else {
      assert events[..n] == events;
    }
  }

  /** A named event sits somewhere in the history. */
  lemma NamedFrom(events: seq<Event>, name: EventName, k: nat) returns (i: nat)
    requires k < |Named(events, name)|
    ensures i < |events| && events[i] == Named(events, name)[k] && events[i].name == name
  {
    var front := events[..|events| - 1];
    if k < |Named(front, name)| {
      i := NamedFrom(front, name, k);
    } else {
      i := |events| - 1;
    }
  }

  lemma NamedHas(events: seq<Event>, name: EventName, i: nat)
    requires i < |events| && events[i].name == name
    ensures Named(events, name) != []
  {
    if i < |events| - 1 {
      NamedHas(events[..|events| - 1], name, i);
    }
  }

  /** A finished state is never left. */
  lemma {:induction false} TerminalStays(events: seq<Event>, i: nat, j: nat)
    requires HistoryOk(events) && i <= j < |events| && Terminal(events[i].state)
    ensures events[j].state == events[i].state
    decreases j
  {
    if i < j {
      TerminalStays(events, i, j - 1);
      assert Follows(events, j);
    }
  }

  /** How many artifacts the first `k` events attach. */
  function AttachedBefore(run: WorkRun, k: nat): (n: nat)
    requires 0 < k <= |run.events| && Accepted(run)
    ensures n <= |run.artifacts|
  {
    assert run.events[1..k] == run.events[1..][..k - 1];
    NamedPrefix(run.events[1..], k - 1, ArtifactAttached);
    |Named(run.events[1..k], ArtifactAttached)|
  }

  /** The aggregate as it stood after its first `k` events. */
  function Prefix(run: WorkRun, k: nat): WorkRun
    requires 0 < k <= |run.events| && Accepted(run)
  {
    run.(
      state := run.events[k - 1].state,
      events := run.events[..k],
      artifacts := run.artifacts[..AttachedBefore(run, k)],
      draftPrUrl := if Named(run.events[1..k], DraftPrRecorded) == [] then None else run.draftPrUrl)
  }

  lemma PrefixAll(run: WorkRun)
    requires run.events != [] && Accepted(run) && run.events[|run.events| - 1].state == run.state
    ensures Prefix(run, |run.events|) == run
  {
    assert run.events[1..|run.events|] == run.events[1..];
    assert run.events[..|run.events|] == run.events;
  }

  /** The operation that event `k` records. */
  ghost function StepOf(rules: Rules, run: WorkRun, k: nat): Step
    requires 0 < k < |run.events| && Accepted(run) && Valid(rules, run)
  {
    var e := run.events[k];
    match e.name
    case ArtifactAttached =>
      var n := AttachedBefore(run, k);
      if n < |run.artifacts| then Attach(run.artifacts[n], e.actor, Aware(e.at)) else Record("", "", Naive)
    case DraftPrRecorded =>
      Record(if run.draftPrUrl.Some? then run.draftPrUrl.value else "", e.actor, Aware(e.at))
    case _ =>
      assert Producible(rules, e);
      var raw: Details :| MakeEvent(rules, e.sequence, e.name, e.state, e.actor, Aware(e.at), raw) == Ok(e);
      Transition(e.state, e.actor, Aware(e.at), raw)
  }

  lemma PrefixGrows(run: WorkRun, k: nat, name: EventName)
    requires 0 < k < |run.events|
    ensures Named(run.events[1..k + 1], name)
         == Named(run.events[1..k], name) + if run.events[k].name == name then [run.events[k]] else []
    ensures Named(run.events[1..k + 1], name) <= Named(run.events[1..], name)
  {
    assert run.events[1..k + 1] == run.events[1..k] + [run.events[k]];
    NamedAppend(run.events[1..k], run.events[k], name);
    assert run.events[1..k + 1] == run.events[1..][..k];
    NamedPrefix(run.events[1..], k, name);
  }

  /** One more event of the prefix. */
  lemma PrefixStep(run: WorkRun, k: nat)
    requires 0 < k < |run.events| && Accepted(run)
    ensures
      var e := run.events[k];
      var before := Prefix(run, k);
      var n := AttachedBefore(run, k);
      && before.events == run.events[..k] && before.events[k - 1].state == before.state
      && before.artifacts == run.artifacts[..n]
      && Prefix(run, k + 1) == before.(
           state := e.state,
           events := before.events + [e],
           artifacts := if e.name == ArtifactAttached && n < |run.artifacts|
                        then before.artifacts + [run.artifacts[n]] else before.artifacts,
           draftPrUrl := if e.name == DraftPrRecorded then run.draftPrUrl else before.draftPrUrl)
  {
    var n := AttachedBefore(run, k);
    PrefixGrows(run, k, ArtifactAttached);
    PrefixGrows(run, k, DraftPrRecorded);
    assert run.events[..k + 1] == run.events[..k] + [run.events[k]];
    if run.events[k].name == ArtifactAttached {
      assert |DetailsOf(Named(run.events[1..], ArtifactAttached))| == |run.artifacts|;
      assert run.artifacts[..n + 1] == run.artifacts[..n] + [run.artifacts[n]];
    }
  }

  lemma EnteredAt(rules: Rules, run: WorkRun, k: nat)
    requires 0 < k < |run.events| && Valid(rules, run) && Accepted(run) && run.events[k].name.Entered?
    ensures Allowed(run.events[k - 1].state, run.events[k].state)
    ensures
      var e := run.events[k];
      var step := StepOf(rules, run, k);
      && step == Transition(e.state, e.actor, Aware(e.at), step.details)
      && MakeEvent(rules, k + 1, Entered(e.state), e.state, e.actor, Aware(e.at), step.details) == Ok(e)
  {
    assert Follows(run.events, k) && Legal(run.events, k);
  }

  lemma StepTransition(rules: Rules, run: WorkRun, k: nat)
    requires 0 < k < |run.events| && Valid(rules, run) && Accepted(run)
    requires run.events[k].name.Entered? && Valid(rules, Prefix(run, k))
    ensures Apply(rules, Prefix(run, k), StepOf(rules, run, k)) == Ok(Prefix(run, k + 1))
  {
    hide MakeEvent, Lookup, Allowed;
    var e := run.events[k];
    EnteredAt(rules, run, k);
    PrefixStep(run, k);
    assert Follows(run.events, k) && Legal(run.events, k);
    if e.state.Completed? {
      CompletionHasDraftPr(rules, run, k);
    }
    TransitionEffect(rules, Prefix(run, k), e.state, e.actor, Aware(e.at), StepOf(rules, run, k).details);
  }

  lemma CompletionHasDraftPr(rules: Rules, run: WorkRun, k: nat)
    requires 0 < k < |run.events| && Valid(rules, run) && Accepted(run) && run.events[k].state.Completed?
    ensures run.draftPrUrl.Some? && Named(run.events[1..k], DraftPrRecorded) != []
  {
    TerminalStays(run.events, k, |run.events| - 1);
    var i := NamedFrom(run.events, DraftPrRecorded, 0);
    if i >= k {
      TerminalStays(run.events, k, i);
    }
    NamedHas(run.events[1..k], DraftPrRecorded, i - 1);
  }

  /** The artifact whose event sits at position `k`. */
  lemma AttachedAt(rules: Rules, run: WorkRun, k: nat) returns (artifact: Artifact)
    requires 0 < k < |run.events| && Valid(rules, run) && Accepted(run)
    requires run.events[k].name.ArtifactAttached?
    ensures
      var n := AttachedBefore(run, k);
      n < |run.artifacts| && artifact == run.artifacts[n] && ArtifactOk(rules, artifact)
    ensures
      var e := run.events[k];
      MakeEvent(rules, k + 1, ArtifactAttached, e.state, e.actor, Aware(e.at), ArtifactDetails(artifact)) == Ok(e)
  {
    hide CorrelationOk, DraftPrOk, Lookup;
    var e := run.events[k];
    var n := AttachedBefore(run, k);
    var logged := Named(run.events[1..], ArtifactAttached);
    PrefixGrows(run, k, ArtifactAttached);
    assert logged[n] == e && DetailsOf(logged)[n] == Recorded(run.artifacts)[n];
    artifact := run.artifacts[n];
    assert artifact in run.artifacts;
    ArtifactDetailsAreTrimmed(rules, artifact);
    assert e in run.events && Follows(run.events, k);
    Reproduce(rules, e);
  }

  lemma FreshInPrefix(run: WorkRun, k: nat)
    requires 0 < k <= |run.events| && Accepted(run) && DistinctIds(run.artifacts)
    ensures
      var n := AttachedBefore(run, k);
      n < |run.artifacts| ==> !HasArtifact(Prefix(run, k), run.artifacts[n].id)
  {
  }

  lemma StepAttach(rules: Rules, run: WorkRun, k: nat)
    requires 0 < k < |run.events| && Valid(rules, run) && Accepted(run) && CleanEvent(run, k)
    requires run.events[k].name.ArtifactAttached? && Valid(rules, Prefix(run, k))
    ensures StepOf(rules, run, k).Attach? && ArtifactOk(rules, StepOf(rules, run, k).artifact)
    ensures Apply(rules, Prefix(run, k), StepOf(rules, run, k)) == Ok(Prefix(run, k + 1))
  {
    hide Valid, ArtifactOk, MakeEvent, Lookup, Allowed, HasArtifact, AttachArtifact, Accepted, Prefix;
    var e := run.events[k];
    var artifact := AttachedAt(rules, run, k);
    FollowsIn(rules, run, k);
    PrefixStep(run, k);
    FreshInPrefix(run, k);
    AttachEffect(rules, Prefix(run, k), artifact, e.actor, Aware(e.at));
  }

  lemma FollowsIn(rules: Rules, run: WorkRun, k: nat)
    requires 0 < k < |run.events| && Valid(rules, run) && Accepted(run)
    ensures Follows(run.events, k) && Legal(run.events, k) && DistinctIds(run.artifacts)
    ensures Previous(run.events, k) == run.events[k - 1].state
  {
  }

  lemma RecordedAt(rules: Rules, run: WorkRun, k: nat)
    requires 0 < k < |run.events| && Valid(rules, run) && Accepted(run) && CleanEvent(run, k)
    requires run.events[k].name.DraftPrRecorded?
    ensures Named(run.events[1..k], DraftPrRecorded) == []
    ensures run.draftPrUrl.Some? && Strip(run.draftPrUrl.value) == run.draftPrUrl.value
    ensures rules.pullUrl(run.draftPrUrl.value, run.correlation.repositoryUrl)
    ensures
      var e := run.events[k];
      MakeEvent(
        rules, k + 1, DraftPrRecorded, e.state, e.actor, Aware(e.at), [("draft_pr_url", run.draftPrUrl.value)]) == Ok(e)
  {
    var e := run.events[k];
    PrefixGrows(run, k, DraftPrRecorded);
    assert e in run.events && Follows(run.events, k);
    Reproduce(rules, e);
  }

  lemma StepRecord(rules: Rules, run: WorkRun, k: nat)
    requires 0 < k < |run.events| && Valid(rules, run) && Accepted(run) && CleanEvent(run, k)
    requires run.events[k].name.DraftPrRecorded? && Valid(rules, Prefix(run, k))
    ensures Apply(rules, Prefix(run, k), StepOf(rules, run, k)) == Ok(Prefix(run, k + 1))
  {
    hide MakeEvent, Lookup, Allowed;
    var e := run.events[k];
    var before := Prefix(run, k);
    RecordedAt(rules, run, k);
    assert Follows(run.events, k) && Legal(run.events, k);
    PrefixStep(run, k);
    RecordEffect(rules, before, run.draftPrUrl.value, e.actor, Aware(e.at));
  }

  lemma StepRebuilds(rules: Rules, run: WorkRun, k: nat)
    requires 0 < k < |run.events| && Valid(rules, run) && Accepted(run) && CleanEvent(run, k)
    requires Valid(rules, Prefix(run, k))
    ensures Apply(rules, Prefix(run, k), StepOf(rules, run, k)) == Ok(Prefix(run, k + 1))
    ensures Valid(rules, Prefix(run, k + 1))
    ensures StepOf(rules, run, k).Attach? ==> ArtifactOk(rules, StepOf(rules, run, k).artifact)
  {
    assert Legal(run.events, k);
    var e := run.events[k];
    match e.name {
      case ArtifactAttached => StepAttach(rules, run, k);
      case DraftPrRecorded => StepRecord(rules, run, k);
      case _ => StepTransition(rules, run, k);
    }
    ApplyValid(rules, Prefix(run, k), StepOf(rules, run, k));
  }

  lemma ApplyValid(rules: Rules, run: WorkRun, step: Step)
    requires Valid(rules, run) && Apply(rules, run, step).Ok?
    requires step.Attach? ==> ArtifactOk(rules, step.artifact)
    ensures Valid(rules, Apply(rules, run, step).value)
  {
    match step
    case Transition(target, actor, at, details) => TransitionEffect(rules, run, target, actor, at, details);
    case Attach(artifact, actor, at) => AttachEffect(rules, run, artifact, actor, at);
    case Record(url, actor, at) => RecordEffect(rules, run, url, actor, at);
  }

  predicate OpensWithApproval(run: WorkRun)
    requires run.events != []
  {
    run.events[0].name == ApprovedName && run.events[0].details == []
  }

  function OriginOf(run: WorkRun): Origin
    requires run.events != []
  {
    Origin(run.runId, run.correlation, run.events[0].actor, Aware(run.events[0].at))
  }

  lemma OriginRebuilds(rules: Rules, run: WorkRun)
    requires run.events != [] && Valid(rules, run) && Accepted(run) && OpensWithApproval(run)
    ensures Build(rules, OriginOf(run), []) == Ok(Prefix(run, 1)) && Valid(rules, Prefix(run, 1))
  {
    var first := run.events[0];
    assert first in run.events;
    Reproduce(rules, first);
    IdentifierIsTrimmed(run.runId);
    assert run.events[..1] == [first];
    assert run.events[1..1] == [];
    ApproveEffect(rules, run.runId, run.correlation, first.actor, Aware(first.at));
  }

  /** The steps that rebuild the first `k` events, event by event. */
  lemma {:induction false} PrefixIsBuilt(rules: Rules, run: WorkRun, k: nat) returns (steps: seq<Step>)
    requires 0 < k <= |run.events| && Valid(rules, run) && Accepted(run) && OpensWithApproval(run)
    requires forall i | 0 < i < k :: CleanEvent(run, i)
    ensures |steps| == k - 1
    ensures Valid(rules, Prefix(run, k)) && BuiltBy(rules, Prefix(run, k), OriginOf(run), steps)
    decreases k
  {
    hide Valid, Accepted, CleanEvent, StepOf, Apply, Prefix;
    if k == 1 {
      steps := [];
      OriginRebuilds(rules, run);
    } else {
      var front := PrefixIsBuilt(rules, run, k - 1);
      assert CleanEvent(run, k - 1);
      StepRebuilds(rules, run, k - 1);
      steps := front + [StepOf(rules, run, k - 1)];
      assert steps[..|steps| - 1] == front;
    }
  }

  lemma CleanIsBuilt(rules: Rules, run: WorkRun)
    requires Valid(rules, run) && Accepted(run) && Clean(run)
    ensures Built(rules, run)
  {
    PrefixAll(run);
    var steps := PrefixIsBuilt(rules, run, |run.events|);
  }

  /** The validator accepts every run that the operations can build. */
  lemma ValidationIsComplete(rules: Rules, run: WorkRun)
    requires Built(rules, run)
    ensures Valid(rules, run) && Accepted(run) && Clean(run)
  {
    var origin, steps :| BuiltBy(rules, run, origin, steps);
    BuiltIsAccepted(rules, run, origin, steps);
  }

  /**
   Sound: of the checkpoints that the validator accepts, those that the operations can build
   are exactly the clean ones.
   */
  lemma AcceptedIsBuilt(rules: Rules, run: WorkRun)
    requires Valid(rules, run) && Accepted(run)
    ensures Built(rules, run) <==> Clean(run)
  {
    if Clean(run) {
      CleanIsBuilt(rules, run);
    } else if Built(rules, run) {
      ValidationIsComplete(rules, run);
    }
  }

  /** The Draft PR event, if there is one, carries its URL and nothing else. */
  predicate PlainDraftPr(run: WorkRun) {
    forall i | 0 < i < |run.events| :: PlainAt(run, i)
  }

  predicate PlainAt(run: WorkRun, i: int)
    requires 0 <= i < |run.events|
  {
    run.events[i].name == DraftPrRecorded ==>
      run.draftPrUrl.Some? && run.events[i].details == [("draft_pr_url", run.draftPrUrl.value)]
  }

  // ---------------------------------------------------------------- the two families that are not clean

  /** A Draft PR event without its extra details. */
  function PlainEvent(e: Event, url: string): Event {
    if e.name == DraftPrRecorded then e.(details := [("draft_pr_url", url)]) else e
  }

  function PlainEvents(events: seq<Event>, url: string): (r: seq<Event>)
    ensures |r| == |events|
    ensures forall i | 0 <= i < |r| :: r[i] == PlainEvent(events[i], url)
  {
    seq(|events|, i requires 0 <= i < |events| => PlainEvent(events[i], url))
  }

  /** The run stripped of what its Draft PR event says beyond the URL. */
  function Plain(run: WorkRun): WorkRun {
    match run.draftPrUrl
    case None => run
    case Some(url) => run.(events := PlainEvents(run.events, url))
  }

  lemma {:induction false} NamedPlain(events: seq<Event>, url: string, name: EventName)
    ensures Named(PlainEvents(events, url), name) == PlainEvents(Named(events, name), url)
    decreases |events|
  {
    if events != [] {
      var front := events[..|events| - 1];
      var all := PlainEvents(events, url);
      NamedPlain(front, url, name);
      assert all[..|all| - 1] == PlainEvents(front, url);
      assert PlainEvents(Named(events, name), url)
          == PlainEvents(Named(front, name), url)
             + if events[|events| - 1].name == name then [all[|all| - 1]] else [];
    }
  }

  lemma {:induction false} LookupIn(details: Details, key: string) returns (i: nat)
    requires Lookup(details, key).Some?
    ensures i < |details| && details[i] == (key, Lookup(details, key).value)
  {
    i := |details| - 1;
    if details[i].0 != key {
      i := LookupIn(details[..i], key);
    }
  }

  /** An event that carries a URL among its details could have been made with the URL alone. */
  lemma PlainIsProducible(rules: Rules, e: Event, url: string)
    requires Producible(rules, e) && Lookup(e.details, "draft_pr_url") == Some(url)
    ensures Producible(rules, e.(details := [("draft_pr_url", url)]))
  {
    hide Lookup, IsIdentifier, SafeValue;
    var raw: Details :| MakeEvent(rules, e.sequence, e.name, e.state, e.actor, Aware(e.at), raw) == Ok(e);
    var i := LookupIn(e.details, "draft_pr_url");
    assert DetailOk(rules, raw[i]) && e.details[i] == (Strip(raw[i].0), Strip(raw[i].1));
    StripStable(raw[i].0);
    StripStable(raw[i].1);
    var plain := [("draft_pr_url", url)];
    assert DetailOk(rules, plain[0]) && TrimDetails(plain) == plain;
    var made := e.(details := plain);
    assert MakeEvent(rules, made.sequence, made.name, made.state, made.actor, Aware(made.at), plain) == Ok(made);
  }

  lemma RecordedUrl(rules: Rules, run: WorkRun, e: Event)
    requires Valid(rules, run) && run.draftPrUrl.Some? && e in run.events && e.name == DraftPrRecorded
    ensures Lookup(e.details, "draft_pr_url") == run.draftPrUrl
  {
    hide CorrelationOk, EventsProducible, ArtifactsOk, HistoryOk, Lookup, Named;
    var i :| 0 <= i < |run.events| && run.events[i] == e;
    NamedFrontBack(run.events, DraftPrRecorded, i);
  }

  lemma {:induction false} NamedFrontBack(events: seq<Event>, name: EventName, i: nat)
    requires i < |events| && events[i].name == name
    ensures events[i] in Named(events, name)
    decreases |events|
  {
    if i < |events| - 1 {
      NamedFrontBack(events[..|events| - 1], name, i);
    }
  }

  lemma PlainAreProducible(rules: Rules, run: WorkRun)
    requires Valid(rules, run) && run.draftPrUrl.Some?
    ensures EventsProducible(rules, PlainEvents(run.events, run.draftPrUrl.value))
  {
    hide Producible, Lookup, CorrelationOk, ArtifactsOk, HistoryOk, DraftPrOk;
    var url := run.draftPrUrl.value;
    var plain := PlainEvents(run.events, url);
    forall e | e in plain
      ensures Producible(rules, e)
    {
      var i :| 0 <= i < |plain| && plain[i] == e;
      assert run.events[i] in run.events;
      if run.events[i].name == DraftPrRecorded {
        RecordedUrl(rules, run, run.events[i]);
        PlainIsProducible(rules, run.events[i], url);
      }
    }
  }

  lemma PlainIsValid(rules: Rules, run: WorkRun)
    requires Valid(rules, run)
    ensures Valid(rules, Plain(run))
  {
    hide Producible, EventsProducible, CorrelationOk, ArtifactsOk, Named;
    if run.draftPrUrl.Some? {
      var url := run.draftPrUrl.value;
      var plain := Plain(run);
      assert forall i | 0 < i < |run.events| :: Follows(run.events, i) ==> Follows(plain.events, i);
      NamedPlain(run.events, url, DraftPrRecorded);
      NamedNames(run.events, DraftPrRecorded);
      LookupSingle("draft_pr_url", url);
      PlainAreProducible(rules, run);
    }
  }

  lemma PlainWalks(events: seq<Event>, url: string)
    requires events != [] && WalkOk(events)
    ensures WalkOk(PlainEvents(events, url))
  {
    var plain := PlainEvents(events, url);
    assert forall i | 0 < i < |events| :: Legal(events, i) ==> Legal(plain, i);
  }

  /** Stripping leaves the details of every other kind of event alone. */
  lemma PlainDetails(events: seq<Event>, url: string, name: EventName)
    requires name != DraftPrRecorded
    ensures DetailsOf(Named(PlainEvents(events, url), name)) == DetailsOf(Named(events, name))
  {
    NamedPlain(events, url, name);
    NamedNames(events, name);
  }

  lemma PlainIsAccepted(rules: Rules, run: WorkRun)
    requires Valid(rules, run) && Accepted(run)
    ensures Plain(run).events != [] && Accepted(Plain(run))
  {
    hide CorrelationOk, EventsProducible, ArtifactsOk, DraftPrOk, Named, Recorded, WalkOk, DetailsOf;
    if run.draftPrUrl.Some? {
      var url := run.draftPrUrl.value;
      PlainWalks(run.events, url);
      assert Plain(run).events[1..] == PlainEvents(run.events[1..], url);
      PlainDetails(run.events[1..], url, ArtifactAttached);
      NamedPlain(run.events[1..], url, DraftPrRecorded);
      NamedNames(run.events[1..], DraftPrRecorded);
      LookupSingle("draft_pr_url", url);
    }
  }

  lemma {:induction false} NamedNames(events: seq<Event>, name: EventName)
    ensures forall i | 0 <= i < |Named(events, name)| :: Named(events, name)[i].name == name
    decreases |events|
  {
    if events != [] {
      NamedNames(events[..|events| - 1], name);
    }
  }

  /** Stripping changes a valid run exactly when its Draft PR event says more than the URL. */
  lemma PlainFixpoint(rules: Rules, run: WorkRun)
    requires Valid(rules, run)
    ensures Plain(run).events != [] && PlainDraftPr(Plain(run)) && (Plain(run) == run <==> PlainDraftPr(run))
    ensures OpensWithApproval(Plain(run)) <==> OpensWithApproval(run)
  {
    if run.draftPrUrl.Some? {
      FirstIsNotDraftPr(rules, run);
      var plain := Plain(run);
      forall i | 0 < i < |run.events|
        ensures PlainAt(plain, i)
      {
      }
      if PlainDraftPr(run) {
        assert forall i | 0 < i < |run.events| :: PlainAt(run, i) ==> plain.events[i] == run.events[i];
        assert plain.events == run.events;
      } else {
        var i :| 0 < i < |run.events| && !PlainAt(run, i);
        assert plain.events[i] != run.events[i];
      }
    } else {
      forall i | 0 < i < |run.events|
        ensures PlainAt(run, i)
      {
        if run.events[i].name == DraftPrRecorded {
          NamedHas(run.events, DraftPrRecorded, i);
        }
      }
    }
  }

  /** A Draft PR is recorded while publishing, so never by the first event. */
  lemma FirstIsNotDraftPr(rules: Rules, run: WorkRun)
    requires Valid(rules, run)
    ensures run.events[0].name != DraftPrRecorded
  {
    if run.events[0].name == DraftPrRecorded {
      NamedFrontBack(run.events, DraftPrRecorded, 0);
    }
  }

  /**
   An accepted checkpoint that is unfinished, or has just finished, is buildable exactly when it
   opens as `approve` does and its Draft PR event is plain; stripped of what that event says
   beyond the URL, it is buildable whenever it opens as `approve` does.
   */
  lemma UnfinishedIsBuilt(rules: Rules, run: WorkRun)
    requires Valid(rules, run) && Accepted(run)
    requires !Terminal(run.state) || run.events[|run.events| - 1].name == Entered(run.state)
    ensures Built(rules, run) <==> OpensWithApproval(run) && PlainDraftPr(run)
    ensures Valid(rules, Plain(run)) && Accepted(Plain(run))
    ensures Built(rules, Plain(run)) <==> OpensWithApproval(run)
  {
    hide Valid, Accepted, Built, Clean, Plain;
    PlainIsValid(rules, run);
    PlainIsAccepted(rules, run);
    PlainFixpoint(rules, run);
    SameShape(run);
    UntailedIsClean(rules, run);
    UntailedIsClean(rules, Plain(run));
    AcceptedIsBuilt(rules, run);
    AcceptedIsBuilt(rules, Plain(run));
  }

  lemma SameShape(run: WorkRun)
    ensures
      var plain := Plain(run);
      && |plain.events| == |run.events| && plain.state == run.state
      && forall i | 0 <= i < |run.events| ::
           plain.events[i].name == run.events[i].name && plain.events[i].state == run.events[i].state
  {
  }

  lemma UntailedIsClean(rules: Rules, run: WorkRun)
    requires Valid(rules, run) && Accepted(run)
    requires !Terminal(run.state) || run.events[|run.events| - 1].name == Entered(run.state)
    ensures Clean(run) <==> OpensWithApproval(run) && PlainDraftPr(run)
  {
    hide CorrelationOk, EventsProducible, ArtifactsOk, DraftPrOk, DetailsOf, Recorded, DraftPrLogged;
    forall i | 0 < i < |run.events|
      ensures CleanEvent(run, i) <==> PlainAt(run, i)
    {
      if Terminal(run.events[i].state) && run.events[i].name == ArtifactAttached {
        TerminalStays(run.events, i, |run.events| - 1);
        TailIsEvidence(run.events, i, |run.events| - 1);
      }
    }
  }

  /** Evidence in a finished state is followed by evidence only. */
  lemma {:induction false} TailIsEvidence(events: seq<Event>, i: nat, j: nat)
    requires HistoryOk(events) && WalkOk(events) && 0 < i <= j < |events|
    requires events[i].name == ArtifactAttached && Terminal(events[i].state)
    ensures events[j].name == ArtifactAttached
    decreases j
  {
    if i < j {
      TailIsEvidence(events, i, j - 1);
      TerminalStays(events, i, j - 1);
      TerminalStays(events, i, j);
      assert Legal(events, j);
    }
  }

  /** Every prefix of an accepted checkpoint is a valid, accepted checkpoint. */
  lemma PrefixIsAccepted(rules: Rules, run: WorkRun, k: nat)
    requires 0 < k <= |run.events| && Valid(rules, run) && Accepted(run)
    ensures Valid(rules, Prefix(run, k)) && Accepted(Prefix(run, k))
  {
    PrefixLogs(run, k);
    PrefixHasDraftPr(rules, run, k);
    HistoryPrefix(run.events, k);
    var stem := Prefix(run, k);
    forall e | e in stem.events
      ensures Producible(rules, e)
    {
      assert e in run.events;
    }
  }

  lemma PrefixWalks(events: seq<Event>, k: nat)
    requires 0 < k <= |events| && WalkOk(events)
    ensures WalkOk(events[..k])
  {
    assert forall i | 0 < i < k :: Legal(events, i) ==> Legal(events[..k], i);
  }

  lemma PrefixLogs(run: WorkRun, k: nat)
    requires 0 < k <= |run.events| && Accepted(run)
    ensures Accepted(Prefix(run, k))
  {
    hide Lookup, WalkOk, Named;
    var stem := Prefix(run, k);
    PrefixWalks(run.events, k);
    var attached := Named(run.events[1..], ArtifactAttached);
    assert stem.events[1..] == run.events[1..k] == run.events[1..][..k - 1];
    NamedPrefix(run.events[1..], k - 1, ArtifactAttached);
    NamedPrefix(run.events[1..], k - 1, DraftPrRecorded);
    forall i | 0 <= i < |stem.artifacts|
      ensures DetailsOf(Named(stem.events[1..], ArtifactAttached))[i] == Recorded(stem.artifacts)[i]
    {
      assert DetailsOf(attached)[i] == Recorded(run.artifacts)[i];
    }
  }

  lemma PrefixHasDraftPr(rules: Rules, run: WorkRun, k: nat)
    requires 0 < k <= |run.events| && Valid(rules, run) && Accepted(run)
    ensures DraftPrOk(rules, Prefix(run, k))
    ensures Prefix(run, k).state.Completed? ==> Prefix(run, k).draftPrUrl.Some?
  {
    hide Lookup, Recorded, DetailsOf, WalkOk, ArtifactsOk, EventsProducible;
    FirstIsNotDraftPr(rules, run);
    NamedPrefix(run.events, k, DraftPrRecorded);
    SkipFirst(run.events[..k], DraftPrRecorded);
    assert run.events[..k][1..] == run.events[1..k];
    if run.events[k - 1].state.Completed? {
      if k > 1 {
        CompletionHasDraftPr(rules, run, k - 1);
        NamedPrefix(run.events[1..k], k - 2, DraftPrRecorded);
        assert run.events[1..k][..k - 2] == run.events[1..k - 1];
      }
    }
  }

  lemma {:induction false} SkipFirst(events: seq<Event>, name: EventName)
    requires events != [] && events[0].name != name
    ensures Named(events[1..], name) == Named(events, name)
    decreases |events|
  {
    if |events| > 1 {
      var front := events[..|events| - 1];
      SkipFirst(front, name);
      assert events[1..][..|events| - 2] == front[1..];
    } else {
      assert events[..0] == [];
    }
  }

  /** What is left of a run after its first `k` events is evidence for a finished run. */
  predicate EvidenceFrom(run: WorkRun, k: nat) {
    forall j | k <= j < |run.events| :: LateEvidence(run, j)
  }

  predicate LateEvidence(run: WorkRun, j: int)
    requires 0 <= j < |run.events|
  {
    run.events[j].name == ArtifactAttached && run.events[j].state == run.state
  }

  /** Where a finished run finished. */
  lemma FinishedAt(rules: Rules, run: WorkRun) returns (k: nat)
    requires Valid(rules, run) && Accepted(run) && Terminal(run.state)
    ensures 0 < k < |run.events| && !Terminal(run.events[k - 1].state)
    ensures run.events[k].name == Entered(run.state) && run.events[k].state == run.state
    ensures EvidenceFrom(run, k + 1)
  {
    hide CorrelationOk, EventsProducible, ArtifactsOk, DraftPrOk, DetailsOf, Recorded, DraftPrLogged;
    k := |run.events| - 1;
    while Terminal(run.events[k - 1].state)
      invariant 0 < k < |run.events| && Terminal(run.events[k].state)
      invariant forall j | k < j < |run.events| :: LateEvidence(run, j)
      invariant run.events[k].state == run.state
      decreases k
    {
      assert Follows(run.events, k) && Legal(run.events, k);
      k := k - 1;
    }
    assert Follows(run.events, k) && Legal(run.events, k);
  }

  /** What the part up to the end of a finished run shares with the run. */
  lemma StemEvents(rules: Rules, run: WorkRun, k: nat)
    requires 0 < k <= |run.events| && Valid(rules, run) && Accepted(run) && EvidenceFrom(run, k)
    ensures
      var stem := Prefix(run, k);
      && stem.events == run.events[..k] && stem.state == run.events[k - 1].state
      && (PlainDraftPr(stem) <==> PlainDraftPr(run))
  {
    hide Valid, WalkOk, DetailsOf, Recorded, DraftPrLogged;
    var stem := Prefix(run, k);
    forall i | 0 < i < k
      ensures PlainAt(stem, i) <==> PlainAt(run, i)
    {
      if run.events[i].name == DraftPrRecorded {
        NamedHas(run.events[1..k], DraftPrRecorded, i - 1);
      }
    }
    forall i | k <= i < |run.events|
      ensures PlainAt(run, i)
    {
      assert LateEvidence(run, i);
    }
    if PlainDraftPr(stem) {
      forall i | 0 < i < |run.events|
        ensures PlainAt(run, i)
      {
        assert i < k ==> PlainAt(stem, i);
      }
    }
  }

  lemma StemIsClean(rules: Rules, run: WorkRun, k: nat)
    requires 0 < k < |run.events| && Valid(rules, run) && PlainDraftPr(run)
    requires !Terminal(run.events[k - 1].state) && run.events[k].name.Entered?
    ensures forall i | 0 < i < k + 1 :: CleanEvent(run, i)
  {
    hide CorrelationOk, EventsProducible, ArtifactsOk, DraftPrOk;
    forall i | 0 < i < k + 1
      ensures CleanEvent(run, i)
    {
      assert PlainAt(run, i);
      if i < k && Terminal(run.events[i].state) {
        TerminalStays(run.events, i, k - 1);
      }
    }
  }

  /**
   A finished accepted checkpoint is a run that has just finished, followed by evidence only. The
   part up to the end is itself a valid, accepted checkpoint; it is buildable, by its own steps,
   exactly when the run opens as `approve` does and its Draft PR event is plain, and stripped of
   what that event says beyond the URL it is buildable whenever the run opens as `approve` does.
   */
  lemma FinishedTail(rules: Rules, run: WorkRun) returns (k: nat, steps: seq<Step>)
    requires Valid(rules, run) && Accepted(run) && Terminal(run.state)
    ensures 0 < k < |run.events| && !Terminal(run.events[k - 1].state)
    ensures EvidenceFrom(run, k + 1)
    ensures
      var stem := Prefix(run, k + 1);
      && Valid(rules, stem) && Accepted(stem) && stem.state == run.state
      && stem.events[k].name == Entered(run.state)
      && (Built(rules, stem) <==> OpensWithApproval(run) && PlainDraftPr(run))
      && (OpensWithApproval(run) && PlainDraftPr(run) ==> BuiltBy(rules, stem, OriginOf(run), steps))
      && (Built(rules, Plain(stem)) <==> OpensWithApproval(run))
  {
    hide Valid, Accepted, Built, Prefix, Plain;
    k := FinishedAt(rules, run);
    PrefixIsAccepted(rules, run, k + 1);
    StemEvents(rules, run, k + 1);
    var stem := Prefix(run, k + 1);
    UnfinishedIsBuilt(rules, stem);
    steps := [];
    if OpensWithApproval(run) && PlainDraftPr(run) {
      StemIsClean(rules, run, k);
      steps := PrefixIsBuilt(rules, run, k + 1);
    }
  }

  /**
   Evidence appended to any finished checkpoint is the gap: the operation refuses to attach it,
   the validator lets the result through, and no sequence of operations builds that result.
   */
  lemma LateEvidenceIsAccepted(rules: Rules, run: WorkRun, artifact: Artifact, e: Event)
    requires Valid(rules, run) && Accepted(run) && Terminal(run.state)
    requires ArtifactOk(rules, artifact) && !HasArtifact(run, artifact.id)
    requires MakeEvent(rules, |run.events| + 1, ArtifactAttached, run.state, e.actor, Aware(e.at), ArtifactDetails(artifact))
          == Ok(e)
    requires run.events[|run.events| - 1].at <= e.at
    ensures
      var grown := run.(events := run.events + [e], artifacts := run.artifacts + [artifact]);
      && AttachArtifact(rules, run, artifact, e.actor, Aware(e.at)).Err?
      && Valid(rules, grown) && Accepted(grown) && !Built(rules, grown)
  {
    hide Accepted;
    var grown := run.(events := run.events + [e], artifacts := run.artifacts + [artifact]);
    EventIsProducible(rules, |run.events| + 1, ArtifactAttached, run.state, e.actor, Aware(e.at), ArtifactDetails(artifact));
    ArtifactDetailsAreTrimmed(rules, artifact);
    DistinctIdsAppend(run, artifact);
    GrowInvariant(rules, run, e, grown);
    GrowValid(rules, run, e, grown);
    AcceptsAttach(run, e, artifact);
    AcceptedIsBuilt(rules, grown);
    assert !CleanEvent(grown, |run.events|);
  }
}
