/**
 The work-run aggregate: an append-only audit history with its lifecycle rules.
 Objects of the source are immutable and are checked whenever they are built, so each
 class is a datatype here, with a `Make…` function for its checking constructor.
 */
module WorkRuns {
  import opened Wrappers
  import opened Text

  datatype State =
    | Approved
    | Executing
    | Verifying
    | Remediating
    | PublishingDraftPr
    | Completed
    | Failed
    | Blocked
    | Cancelled

  function StateText(s: State): string {
    match s
    case Approved => "approved"
    case Executing => "executing"
    case Verifying => "verifying"
    case Remediating => "remediating"
    case PublishingDraftPr => "publishing_draft_pr"
    case Completed => "completed"
    case Failed => "failed"
    case Blocked => "blocked"
    case Cancelled => "cancelled"
  }

  predicate Terminal(s: State) {
    s.Completed? || s.Failed? || s.Blocked? || s.Cancelled?
  }

  /** `to in ALLOWED_TRANSITIONS[from]` */
  predicate Allowed(from: State, to: State) {
    match from
    case Approved => to.Executing? || Stops(to)
    case Executing => to.Verifying? || Stops(to)
    case Verifying => to.Remediating? || to.PublishingDraftPr? || Stops(to)
    case Remediating => to.Verifying? || Stops(to)
    case PublishingDraftPr => to.Completed? || Stops(to)
    case Completed | Failed | Blocked | Cancelled => false
  }

  /** The ends that every unfinished state may reach. */
  predicate Stops(to: State) {
    to.Blocked? || to.Failed? || to.Cancelled?
  }

  /** The exceptions that the workflow code raises. */
  datatype Fault =
    | ValidationFault
    | InvalidTransitionFault
    | IntegrityFault
    | StoreFault
    | ConflictFault
    | PortFault

  /**
   The library predicates that the workflow code consults: Unicode category `C*`, the
   credential markers in a key, `urlsplit` on URLs (of the aggregate and, last, of the
   updates sent to the provider), and case mapping.
   */
  datatype Rules = Rules(
    control: char -> bool,
    sensitive: string -> bool,
    secureUrl: string -> bool,
    evidenceUrl: string -> bool,
    pullUrl: (string, string) -> bool,
    upper: string -> string,
    lower: string -> string,
    reportUrl: string -> bool)

  predicate IdentifierChar(c: char) {
    AsciiAlnum(c) || c == '.' || c == '_' || c == '/' || c == '-'
  }

  predicate IdentifierChars(s: string) {
    forall i | 0 <= i < |s| :: IdentifierChar(s[i])
  }

  predicate DotPairAt(s: string, i: int) {
    0 <= i < |s| - 1 && s[i] == '.' && s[i + 1] == '.'
  }

  predicate HasDotPair(s: string) {
    exists i | 0 <= i < |s| :: DotPairAt(s, i)
  }

  predicate IsIdentifier(s: string) {
    1 <= |s| <= 255 && AsciiAlnum(s[0]) && IdentifierChars(s) && !HasDotPair(s)
  }

  predicate IsSha256(s: string) {
    |s| == 64 && forall i | 0 <= i < |s| :: '0' <= s[i] <= '9' || 'a' <= s[i] <= 'f'
  }

  predicate AsciiUpper(c: char) {
    'A' <= c <= 'Z'
  }

  predicate AsciiDigit(c: char) {
    '0' <= c <= '9'
  }

  /** `[A-Z][A-Z0-9]+` */
  predicate IsProjectPart(s: string) {
    |s| >= 2 && AsciiUpper(s[0]) && forall i | 0 <= i < |s| :: AsciiUpper(s[i]) || AsciiDigit(s[i])
  }

  /** `[1-9][0-9]*` */
  predicate IsIssueNumber(s: string) {
    s != "" && s[0] != '0' && forall i | 0 <= i < |s| :: AsciiDigit(s[i])
  }

  predicate IsIssueKey(s: string) {
    var parts := Split(s, '-');
    |parts| == 2 && IsProjectPart(parts[0]) && IsIssueNumber(parts[1])
  }

  datatype Correlation = Correlation(
    issueKey: string,
    issueUrl: string,
    revision: string,
    contentSha256: string,
    repositoryUrl: string,
    branch: string,
    assemblyRunId: string)

  predicate CorrelationOk(rules: Rules, c: Correlation) {
    && IsIssueKey(c.issueKey)
    && Trimmed(c.issueUrl) && rules.secureUrl(c.issueUrl)
    && IsIdentifier(c.revision)
    && IsSha256(c.contentSha256)
    && Trimmed(c.repositoryUrl) && rules.secureUrl(c.repositoryUrl)
    && IsIdentifier(c.branch)
    && IsIdentifier(c.assemblyRunId)
  }

  function MakeCorrelation(rules: Rules, raw: Correlation): Result<Correlation, Fault> {
    var c := Correlation(
      rules.upper(Strip(raw.issueKey)), Strip(raw.issueUrl), Strip(raw.revision), rules.lower(Strip(raw.contentSha256)),
      Strip(raw.repositoryUrl), Strip(raw.branch), Strip(raw.assemblyRunId));
    if CorrelationOk(rules, c) then Ok(c) else Err(ValidationFault)
  }

  datatype Artifact = Artifact(id: string, kind: string, uri: string, sha256: Option<string>)

  predicate ArtifactOk(rules: Rules, a: Artifact) {
    && IsIdentifier(a.id)
    && IsIdentifier(a.kind)
    && Trimmed(a.uri) && rules.evidenceUrl(a.uri)
    && (a.sha256.Some? ==> IsSha256(a.sha256.value))
  }

  function MakeArtifact(rules: Rules, raw: Artifact): Result<Artifact, Fault> {
    var a := Artifact(Strip(raw.id), Strip(raw.kind), Strip(raw.uri), raw.sha256);
    if ArtifactOk(rules, a) then Ok(a) else Err(ValidationFault)
  }

  /** The event names that the code compares with, and any other. */
  datatype EventName =
    | ApprovedName
    | Entered(target: State)
    | ArtifactAttached
    | DraftPrRecorded
    | OtherName(text: string)

  type Details = seq<(string, string)>

  datatype Event = Event(
    sequence: int, name: EventName, state: State, actor: string, at: int, details: Details)

  /** What a clock hands out: only timezone-aware readings denote an instant. */
  datatype Reading = Naive | Aware(instant: int)

  predicate SafeValue(rules: Rules, v: string) {
    1 <= |v| <= 2048 && forall i | 0 <= i < |v| :: !rules.control(v[i])
  }

  /** White space is not alphanumeric, so the marker test may look at the trimmed key. */
  predicate DetailOk(rules: Rules, detail: (string, string)) {
    && IsIdentifier(Strip(detail.0))
    && !rules.sensitive(Strip(detail.0))
    && SafeValue(rules, Strip(detail.1))
  }

  predicate DistinctKeys(details: Details) {
    forall i, j | 0 <= i < j < |details| :: details[i].0 != details[j].0
  }

  function TrimDetails(details: Details): (r: Details)
    ensures |r| == |details|
    ensures forall i | 0 <= i < |r| :: r[i] == (Strip(details[i].0), Strip(details[i].1))
  {
    seq(|details|, i requires 0 <= i < |details| => (Strip(details[i].0), Strip(details[i].1)))
  }

  /** Uniqueness is checked on the keys as given, before they are trimmed. */
  function MakeEvent(
    rules: Rules, sequence: int, name: EventName, state: State, actor: string, at: Reading, details: Details)
    : Result<Event, Fault>
  {
    if && sequence >= 1
       && (name.OtherName? ==> IsIdentifier(name.text))
       && IsIdentifier(Strip(actor))
       && at.Aware?
       && DistinctKeys(details)
       && (forall i | 0 <= i < |details| :: DetailOk(rules, details[i]))
    then Ok(Event(sequence, name, state, Strip(actor), at.instant, TrimDetails(details)))
    else Err(ValidationFault)
  }

  datatype WorkRun = WorkRun(
    runId: string,
    correlation: Correlation,
    state: State,
    events: seq<Event>,
    artifacts: seq<Artifact>,
    draftPrUrl: Option<string>)

  /** The events that carry a name, in order. */
  function Named(events: seq<Event>, name: EventName): (r: seq<Event>)
    ensures |r| <= |events|
  {
    if events == [] then []
    else
      var last := events[|events| - 1];
      Named(events[..|events| - 1], name) + if last.name == name then [last] else []
  }

  lemma NamedAppend(events: seq<Event>, e: Event, name: EventName)
    ensures Named(events + [e], name) == Named(events, name) + if e.name == name then [e] else []
  {
    assert (events + [e])[..|events|] == events;
  }

  /** `dict(details).get(key)`: a later pair wins. */
  function Lookup(details: Details, key: string): Option<string> {
    if details == [] then None
    else if details[|details| - 1].0 == key then Some(details[|details| - 1].1)
    else Lookup(details[..|details| - 1], key)
  }

  predicate Moves(from: State, to: State) {
    from == to || Allowed(from, to)
  }

  /**
   Sequences count 1, 2, 3, …; the first event records approval; each later event is no
   earlier than the one before it and stays in its state or moves to a permitted one.
   */
  predicate HistoryOk(events: seq<Event>) {
    && events != []
    && events[0].sequence == 1
    && events[0].state.Approved?
    && forall i | 0 < i < |events| :: Follows(events, i)
  }

  predicate Follows(events: seq<Event>, i: int)
    requires 0 < i < |events|
  {
    && events[i].sequence == i + 1
    && events[i - 1].at <= events[i].at
    && Moves(events[i - 1].state, events[i].state)
  }

  predicate DistinctIds(artifacts: seq<Artifact>) {
    forall i, j | 0 <= i < j < |artifacts| :: artifacts[i].id != artifacts[j].id
  }

  predicate DraftPrOk(rules: Rules, run: WorkRun) {
    var recorded := Named(run.events, DraftPrRecorded);
    match run.draftPrUrl
    case None => recorded == []
    case Some(url) =>
      && rules.pullUrl(url, run.correlation.repositoryUrl)
      && |recorded| == 1
      && recorded[0].state.PublishingDraftPr?
      && Lookup(recorded[0].details, "draft_pr_url") == Some(url)
  }

  /** What the constructor of the aggregate enforces. */
  predicate Invariant(rules: Rules, run: WorkRun) {
    && IsIdentifier(run.runId)
    && HistoryOk(run.events)
    && run.events[|run.events| - 1].state == run.state
    && DistinctIds(run.artifacts)
    && DraftPrOk(rules, run)
    && (run.state.Completed? ==> run.draftPrUrl.Some?)
  }

  function MakeWorkRun(rules: Rules, raw: WorkRun): (r: Result<WorkRun, Fault>)
    ensures r.Ok? ==> r.value.events == raw.events != []
  {
    var run := raw.(
      runId := Strip(raw.runId),
      draftPrUrl := match raw.draftPrUrl case None => None case Some(url) => Some(Strip(url)));
    if Invariant(rules, run) then Ok(run) else Err(ValidationFault)
  }

  function Approve(
    rules: Rules, runId: string, correlation: Correlation, actor: string, at: Reading): Result<WorkRun, Fault>
  {
    var event :- MakeEvent(rules, 1, ApprovedName, Approved, actor, at, []);
    MakeWorkRun(rules, WorkRun(runId, correlation, Approved, [event], [], None))
  }

  function TransitionTo(
    rules: Rules, run: WorkRun, target: State, actor: string, at: Reading, details: Details): Result<WorkRun, Fault>
  {
    if !Allowed(run.state, target) then Err(InvalidTransitionFault)
    else
      var event :- MakeEvent(rules, |run.events| + 1, Entered(target), target, actor, at, details);
      MakeWorkRun(rules, run.(state := target, events := run.events + [event]))
  }

  /** How an artifact is written into its audit event. */
  function ArtifactDetails(a: Artifact): Details {
    [("artifact_id", a.id), ("kind", a.kind), ("uri", a.uri)]
    + match a.sha256 case None => [] case Some(digest) => [("sha256", digest)]
  }

  predicate HasArtifact(run: WorkRun, id: string) {
    exists i | 0 <= i < |run.artifacts| :: run.artifacts[i].id == id
  }

  function AttachArtifact(
    rules: Rules, run: WorkRun, artifact: Artifact, actor: string, at: Reading): Result<WorkRun, Fault>
  {
    if Terminal(run.state) || HasArtifact(run, artifact.id) then Err(ValidationFault)
    else
      var event :- MakeEvent(
        rules, |run.events| + 1, ArtifactAttached, run.state, actor, at, ArtifactDetails(artifact));
      MakeWorkRun(rules, run.(events := run.events + [event], artifacts := run.artifacts + [artifact]))
  }

  function RecordDraftPr(
    rules: Rules, run: WorkRun, url: string, actor: string, at: Reading): Result<WorkRun, Fault>
  {
    var candidate := Strip(url);
    if !run.state.PublishingDraftPr? || run.draftPrUrl.Some? then Err(ValidationFault)
    else if !rules.pullUrl(candidate, run.correlation.repositoryUrl) then Err(ValidationFault)
    else
      var event :- MakeEvent(
        rules, |run.events| + 1, DraftPrRecorded, run.state, actor, at, [("draft_pr_url", candidate)]);
      MakeWorkRun(rules, run.(events := run.events + [event], draftPrUrl := Some(candidate)))
  }

  // ---------------------------------------------------------------- what the operations keep

  /** `e` could have come out of the event constructor. */
  ghost predicate Producible(rules: Rules, e: Event) {
    exists raw: Details :: MakeEvent(rules, e.sequence, e.name, e.state, e.actor, Aware(e.at), raw) == Ok(e)
  }

  ghost predicate EventsProducible(rules: Rules, events: seq<Event>) {
    forall e | e in events :: Producible(rules, e)
  }

  predicate ArtifactsOk(rules: Rules, artifacts: seq<Artifact>) {
    forall a | a in artifacts :: ArtifactOk(rules, a)
  }

  /** A work run all of whose parts were accepted by their constructors. */
  ghost predicate Valid(rules: Rules, run: WorkRun) {
    && Invariant(rules, run)
    && CorrelationOk(rules, run.correlation)
    && EventsProducible(rules, run.events)
    && ArtifactsOk(rules, run.artifacts)
    && (run.draftPrUrl.Some? ==> Trimmed(run.draftPrUrl.value))
  }

  /**
   `after` continues `before`: the audit log grows, evidence is kept as a prefix, the identity
   of the run is fixed, a recorded Draft PR stays, and a finished run has no continuation.
   */
  predicate Extends(before: WorkRun, after: WorkRun) {
    && !Terminal(before.state)
    && before.events < after.events
    && before.artifacts <= after.artifacts
    && before.runId == after.runId
    && before.correlation == after.correlation
    && (before.draftPrUrl.Some? ==> after.draftPrUrl == before.draftPrUrl)
  }

  lemma ExtendsTransitive(a: WorkRun, b: WorkRun, c: WorkRun)
    requires Extends(a, b) && Extends(b, c)
    ensures Extends(a, c)
  {
  }

  lemma IdentifierIsTrimmed(s: string)
    requires IsIdentifier(s)
    ensures Trimmed(s) && Strip(s) == s
  {
    assert IdentifierChar(s[0]) && IdentifierChar(s[|s| - 1]);
  }

  lemma EventIsProducible(
    rules: Rules, sequence: int, name: EventName, state: State, actor: string, at: Reading, details: Details)
    requires MakeEvent(rules, sequence, name, state, actor, at, details).Ok?
    ensures Producible(rules, MakeEvent(rules, sequence, name, state, actor, at, details).value)
  {
    var e := MakeEvent(rules, sequence, name, state, actor, at, details).value;
    assert MakeEvent(rules, e.sequence, e.name, e.state, e.actor, Aware(e.at), details) == Ok(e);
  }

  /** The one way a history grows: by an event whose sequence, time and state fit. */
  lemma HistoryAppend(events: seq<Event>, e: Event)
    requires events != []
    ensures HistoryOk(events + [e]) <==>
            && HistoryOk(events)
            && e.sequence == |events| + 1
            && events[|events| - 1].at <= e.at
            && Moves(events[|events| - 1].state, e.state)
  {
    var all := events + [e];
    if HistoryOk(events) {
      assert forall i | 0 < i < |events| :: Follows(events, i) ==> Follows(all, i);
    }
    if HistoryOk(all) {
      assert Follows(all, |events|);
      HistoryPrefix(all, |events|);
      assert all[..|events|] == events;
    }
  }

  lemma HistoryPrefix(events: seq<Event>, n: nat)
    requires HistoryOk(events) && 0 < n <= |events|
    ensures HistoryOk(events[..n])
  {
    assert forall i | 0 < i < n :: Follows(events, i) ==> Follows(events[..n], i);
  }

  /** A run grown by one event that is not about the Draft PR. */
  lemma GrowInvariant(rules: Rules, run: WorkRun, e: Event, grown: WorkRun)
    requires Invariant(rules, run)
    requires e.sequence == |run.events| + 1 && e.name != DraftPrRecorded && Moves(run.state, e.state)
    requires grown == run.(state := e.state, events := run.events + [e], artifacts := grown.artifacts)
    ensures Invariant(rules, grown) <==>
            && run.events[|run.events| - 1].at <= e.at
            && DistinctIds(grown.artifacts)
            && (e.state.Completed? ==> run.draftPrUrl.Some?)
  {
    HistoryAppend(run.events, e);
    NamedAppend(run.events, e, DraftPrRecorded);
  }

  lemma GrowValid(rules: Rules, run: WorkRun, e: Event, grown: WorkRun)
    requires Valid(rules, run) && Producible(rules, e)
    requires grown.events == run.events + [e] && run.artifacts <= grown.artifacts
    requires ArtifactsOk(rules, grown.artifacts[|run.artifacts|..])
    requires grown.runId == run.runId && grown.correlation == run.correlation
    requires grown.draftPrUrl.Some? ==> Trimmed(grown.draftPrUrl.value)
    ensures MakeWorkRun(rules, grown) == if Invariant(rules, grown) then Ok(grown) else Err(ValidationFault)
    ensures Invariant(rules, grown) ==> Valid(rules, grown)
  {
    IdentifierIsTrimmed(run.runId);
    forall x | x in grown.events
      ensures Producible(rules, x)
    {
      assert x in run.events || x == e;
    }
    assert grown.artifacts == run.artifacts + grown.artifacts[|run.artifacts|..];
  }

  /** Where a new transition event leads, once the event itself has been accepted. */
  lemma TransitionGrows(rules: Rules, run: WorkRun, e: Event)
    requires Valid(rules, run) && Producible(rules, e)
    requires e.sequence == |run.events| + 1 && e.name == Entered(e.state) && Allowed(run.state, e.state)
    ensures
      var grown := run.(state := e.state, events := run.events + [e]);
      if run.events[|run.events| - 1].at <= e.at && (e.state.Completed? ==> run.draftPrUrl.Some?)
      then MakeWorkRun(rules, grown) == Ok(grown) && Valid(rules, grown) && Extends(run, grown)
      else MakeWorkRun(rules, grown) == Err(ValidationFault)
  {
    var grown := run.(state := e.state, events := run.events + [e]);
    GrowInvariant(rules, run, e, grown);
    GrowValid(rules, run, e, grown);
  }

  /**
   A transition succeeds exactly when the move is allowed, the clock does not run backwards,
   completion has a Draft PR, and the event itself is acceptable; it then adds that one event.
   */
  lemma TransitionEffect(rules: Rules, run: WorkRun, target: State, actor: string, at: Reading, details: Details)
    requires Valid(rules, run)
    ensures
      var event := MakeEvent(rules, |run.events| + 1, Entered(target), target, actor, at, details);
      var result := TransitionTo(rules, run, target, actor, at, details);
      if !Allowed(run.state, target) then result == Err(InvalidTransitionFault)
      else if
        && event.Ok?
        && run.events[|run.events| - 1].at <= event.value.at
        && (target.Completed? ==> run.draftPrUrl.Some?)
      then
        && result == Ok(run.(state := target, events := run.events + [event.value]))
        && Valid(rules, result.value)
        && Extends(run, result.value)
      else result == Err(ValidationFault)
  {
    var event := MakeEvent(rules, |run.events| + 1, Entered(target), target, actor, at, details);
    if Allowed(run.state, target) && event.Ok? {
      EventIsProducible(rules, |run.events| + 1, Entered(target), target, actor, at, details);
      TransitionGrows(rules, run, event.value);
    }
  }

  lemma DistinctIdsAppend(run: WorkRun, artifact: Artifact)
    requires DistinctIds(run.artifacts)
    ensures DistinctIds(run.artifacts + [artifact]) <==> !HasArtifact(run, artifact.id)
  {
    var all := run.artifacts + [artifact];
    if HasArtifact(run, artifact.id) {
      var i :| 0 <= i < |run.artifacts| && run.artifacts[i].id == artifact.id;
      assert all[i].id == all[|run.artifacts|].id;
    }
  }

  lemma AttachGrows(rules: Rules, run: WorkRun, artifact: Artifact, e: Event)
    requires Valid(rules, run) && Producible(rules, e) && ArtifactOk(rules, artifact)
    requires !Terminal(run.state) && !HasArtifact(run, artifact.id)
    requires e.sequence == |run.events| + 1 && e.name == ArtifactAttached && e.state == run.state
    ensures
      var grown := run.(events := run.events + [e], artifacts := run.artifacts + [artifact]);
      if run.events[|run.events| - 1].at <= e.at
      then MakeWorkRun(rules, grown) == Ok(grown) && Valid(rules, grown) && Extends(run, grown)
      else MakeWorkRun(rules, grown) == Err(ValidationFault)
  {
    var grown := run.(events := run.events + [e], artifacts := run.artifacts + [artifact]);
    DistinctIdsAppend(run, artifact);
    GrowInvariant(rules, run, e, grown);
    GrowValid(rules, run, e, grown);
  }

  /** Attaching adds exactly one artifact, with its audit event, to an unfinished run. */
  lemma AttachEffect(rules: Rules, run: WorkRun, artifact: Artifact, actor: string, at: Reading)
    requires Valid(rules, run) && ArtifactOk(rules, artifact)
    ensures
      var event := MakeEvent(
        rules, |run.events| + 1, ArtifactAttached, run.state, actor, at, ArtifactDetails(artifact));
      var result := AttachArtifact(rules, run, artifact, actor, at);
      if
        && !Terminal(run.state)
        && !HasArtifact(run, artifact.id)
        && event.Ok?
        && run.events[|run.events| - 1].at <= event.value.at
      then
        && result == Ok(run.(events := run.events + [event.value], artifacts := run.artifacts + [artifact]))
        && Valid(rules, result.value)
        && Extends(run, result.value)
      else result == Err(ValidationFault)
  {
    var event := MakeEvent(
      rules, |run.events| + 1, ArtifactAttached, run.state, actor, at, ArtifactDetails(artifact));
    if !Terminal(run.state) && !HasArtifact(run, artifact.id) && event.Ok? {
      EventIsProducible(rules, |run.events| + 1, ArtifactAttached, run.state, actor, at, ArtifactDetails(artifact));
      AttachGrows(rules, run, artifact, event.value);
    }
  }

  lemma LiteralIsTrimmed(key: string)
    requires key != "" && key[0] > ' ' && key[0] < '\U{7F}' && key[|key| - 1] > ' ' && key[|key| - 1] < '\U{7F}'
    ensures Strip(key) == key
  {
  }

  /** The audit event of an artifact holds the artifact's fields as they are. */
  lemma ArtifactDetailsAreTrimmed(rules: Rules, artifact: Artifact)
    requires ArtifactOk(rules, artifact)
    ensures TrimDetails(ArtifactDetails(artifact)) == ArtifactDetails(artifact)
    ensures DistinctKeys(ArtifactDetails(artifact))
  {
    LiteralIsTrimmed("artifact_id");
    LiteralIsTrimmed("kind");
    LiteralIsTrimmed("uri");
    LiteralIsTrimmed("sha256");
    IdentifierIsTrimmed(artifact.id);
    IdentifierIsTrimmed(artifact.kind);
    assert Strip(artifact.uri) == artifact.uri;
    var details := ArtifactDetails(artifact);
    assert |"artifact_id"| == 11 && |"kind"| == 4 && |"uri"| == 3 && |"sha256"| == 6;
    if artifact.sha256.Some? {
      assert Strip(artifact.sha256.value) == artifact.sha256.value;
    }
  }

  /**
   The audit log of a valid run is safe to show: an identifier acted in every event, and every
   detail has an identifier without credential markers as its key and a trimmed value of 1 to 2048
   characters without control characters.
   */
  lemma AuditIsSafe(rules: Rules, run: WorkRun, i: nat)
    requires Valid(rules, run) && i < |run.events|
    ensures
      var e := run.events[i];
      && IsIdentifier(e.actor)
      && forall k | 0 <= k < |e.details| ::
           var (key, value) := e.details[k];
           && IsIdentifier(key) && !rules.sensitive(key)
           && 1 <= |value| <= 2048 && Trimmed(value)
           && forall c | c in value :: !rules.control(c)
  {
    hide IsIdentifier, Strip, Trimmed, Invariant, CorrelationOk, ArtifactsOk;
    var e := run.events[i];
    assert e in run.events && Producible(rules, e);
    var raw: Details :| MakeEvent(rules, e.sequence, e.name, e.state, e.actor, Aware(e.at), raw) == Ok(e);
    forall k | 0 <= k < |e.details|
      ensures e.details[k] == (Strip(raw[k].0), Strip(raw[k].1)) && DetailOk(rules, raw[k])
      ensures Trimmed(e.details[k].1)
    {
      StripIsTrimmed(raw[k].1);
    }
  }

  /** Each field of an artifact can be read off its audit event, and no digest is made up. */
  lemma ArtifactDetailsAreRead(artifact: Artifact)
    ensures
      var details := ArtifactDetails(artifact);
      && Lookup(details, "artifact_id") == Some(artifact.id)
      && Lookup(details, "kind") == Some(artifact.kind)
      && Lookup(details, "uri") == Some(artifact.uri)
      && Lookup(details, "sha256") == artifact.sha256
  {
    var details := ArtifactDetails(artifact);
    assert |"artifact_id"| == 11 && |"kind"| == 4 && |"uri"| == 3 && |"sha256"| == 6;
    var one := [("artifact_id", artifact.id)];
    var two := one + [("kind", artifact.kind)];
    var three := two + [("uri", artifact.uri)];
    forall key: string
      ensures Lookup(one, key) == if key == "artifact_id" then Some(artifact.id) else None
    {
      LookupLast([], ("artifact_id", artifact.id), key);
      assert one == [] + [("artifact_id", artifact.id)];
    }
    forall key: string
      ensures Lookup(details, key)
           == if key == "sha256" && artifact.sha256.Some? then artifact.sha256
              else if key == "uri" then Some(artifact.uri)
              else if key == "kind" then Some(artifact.kind)
              else Lookup(one, key)
    {
      LookupLast(one, ("kind", artifact.kind), key);
      LookupLast(two, ("uri", artifact.uri), key);
      match artifact.sha256
      case None => assert details == three;
      case Some(digest) =>
        LookupLast(three, ("sha256", digest), key);
        assert details == three + [("sha256", digest)];
    }
  }

  lemma LookupLast(details: Details, last: (string, string), key: string)
    ensures Lookup(details + [last], key) == if last.0 == key then Some(last.1) else Lookup(details, key)
  {
    var all := details + [last];
    assert all[|all| - 1] == last && all[..|all| - 1] == details;
  }

  lemma DraftPrDetails(rules: Rules, run: WorkRun, url: string, actor: string, at: Reading)
    requires Trimmed(url)
    ensures
      var event := MakeEvent(rules, |run.events| + 1, DraftPrRecorded, run.state, actor, at, [("draft_pr_url", url)]);
      event.Ok? ==> event.value.details == [("draft_pr_url", url)]
  {
    var key := "draft_pr_url";
    assert !IsSpace(key[0]) && !IsSpace(key[|key| - 1]);
    assert Strip(key) == key;
    assert Strip(url) == url;
  }

  lemma LookupSingle(key: string, value: string)
    ensures Lookup([(key, value)], key) == Some(value)
  {
  }

  lemma RecordGrows(rules: Rules, run: WorkRun, url: string, e: Event)
    requires Valid(rules, run) && Producible(rules, e) && Trimmed(url)
    requires run.state.PublishingDraftPr? && run.draftPrUrl.None?
    requires e.sequence == |run.events| + 1 && e.name == DraftPrRecorded && e.state == run.state
    requires e.details == [("draft_pr_url", url)]
    ensures
      var grown := run.(events := run.events + [e], draftPrUrl := Some(url));
      if run.events[|run.events| - 1].at <= e.at && rules.pullUrl(url, run.correlation.repositoryUrl)
      then MakeWorkRun(rules, grown) == Ok(grown) && Valid(rules, grown) && Extends(run, grown)
      else MakeWorkRun(rules, grown) == Err(ValidationFault)
  {
    var grown := run.(events := run.events + [e], draftPrUrl := Some(url));
    LookupSingle("draft_pr_url", url);
    RecordInvariant(rules, run, e, grown);
    GrowValid(rules, run, e, grown);
    assert Strip(url) == url;
  }

  /** A Draft PR is recorded at most once, while publishing, with its own audit event. */
  lemma RecordEffect(rules: Rules, run: WorkRun, url: string, actor: string, at: Reading)
    requires Valid(rules, run)
    ensures
      var event := MakeEvent(
        rules, |run.events| + 1, DraftPrRecorded, run.state, actor, at, [("draft_pr_url", Strip(url))]);
      var result := RecordDraftPr(rules, run, url, actor, at);
      if
        && run.state.PublishingDraftPr?
        && run.draftPrUrl.None?
        && rules.pullUrl(Strip(url), run.correlation.repositoryUrl)
        && event.Ok?
        && run.events[|run.events| - 1].at <= event.value.at
      then
        && event.value.details == [("draft_pr_url", Strip(url))]
        && result == Ok(run.(events := run.events + [event.value], draftPrUrl := Some(Strip(url))))
        && Valid(rules, result.value)
        && Extends(run, result.value)
      else result == Err(ValidationFault)
  {
    var details := [("draft_pr_url", Strip(url))];
    var event := MakeEvent(rules, |run.events| + 1, DraftPrRecorded, run.state, actor, at, details);
    if event.Ok? && run.state.PublishingDraftPr? && run.draftPrUrl.None? {
      EventIsProducible(rules, |run.events| + 1, DraftPrRecorded, run.state, actor, at, details);
      StripIsTrimmed(url);
      DraftPrDetails(rules, run, Strip(url), actor, at);
      RecordGrows(rules, run, Strip(url), event.value);
    }
  }

  lemma RecordInvariant(rules: Rules, run: WorkRun, e: Event, grown: WorkRun)
    requires Invariant(rules, run) && run.draftPrUrl.None? && grown.draftPrUrl.Some?
    requires e.sequence == |run.events| + 1 && e.name == DraftPrRecorded && e.state.PublishingDraftPr?
    requires run.state.PublishingDraftPr?
    requires Lookup(e.details, "draft_pr_url") == grown.draftPrUrl
    requires grown == run.(events := run.events + [e], draftPrUrl := grown.draftPrUrl)
    ensures Invariant(rules, grown) <==>
            && run.events[|run.events| - 1].at <= e.at
            && rules.pullUrl(grown.draftPrUrl.value, run.correlation.repositoryUrl)
  {
    HistoryAppend(run.events, e);
    NamedAppend(run.events, e, DraftPrRecorded);
  }

  lemma ApproveEffect(rules: Rules, runId: string, correlation: Correlation, actor: string, at: Reading)
    requires CorrelationOk(rules, correlation)
    ensures
      var event := MakeEvent(rules, 1, ApprovedName, Approved, actor, at, []);
      var result := Approve(rules, runId, correlation, actor, at);
      && (result.Ok? <==> event.Ok? && IsIdentifier(Strip(runId)))
      && (result.Ok? ==>
          && result.value == WorkRun(Strip(runId), correlation, Approved, [event.value], [], None)
          && Valid(rules, result.value))
  {
    var event := MakeEvent(rules, 1, ApprovedName, Approved, actor, at, []);
    if event.Ok? {
      EventIsProducible(rules, 1, ApprovedName, Approved, actor, at, []);
      FirstInvariant(rules, Strip(runId), correlation, event.value);
    }
  }

  lemma FirstInvariant(rules: Rules, runId: string, correlation: Correlation, event: Event)
    requires event.sequence == 1 && event.name == ApprovedName && event.state == Approved
    ensures Invariant(rules, WorkRun(runId, correlation, Approved, [event], [], None)) <==> IsIdentifier(runId)
  {
    assert [event][..0] == [];
    assert Named([event], DraftPrRecorded) == [];
  }
}
