/**
 The checkpoint store: one JSON file per work run, compare-and-swap by re-reading the file.
 Reading and replacing the file is one atomic step here.
 */
module CheckpointStore {
  import opened Wrappers
  import opened Text
  import opened JsonValues
  import opened WorkRuns
  import opened CheckpointValidation

  // ---------------------------------------------------------------- names, states, times

  function ParseState(s: string): Option<State> {
    if s == "approved" then Some(Approved)
    else if s == "executing" then Some(Executing)
    else if s == "verifying" then Some(Verifying)
    else if s == "remediating" then Some(Remediating)
    else if s == "publishing_draft_pr" then Some(PublishingDraftPr)
    else if s == "completed" then Some(Completed)
    else if s == "failed" then Some(Failed)
    else if s == "blocked" then Some(Blocked)
    else if s == "cancelled" then Some(Cancelled)
    else None
  }

  function NameText(n: EventName): string {
    match n
    case ApprovedName => "approved"
    case Entered(target) => "entered_" + StateText(target)
    case ArtifactAttached => "artifact_attached"
    case DraftPrRecorded => "draft_pr_recorded"
    case OtherName(text) => text
  }

  function ParseName(s: string): EventName {
    if s == "approved" then ApprovedName
    else if s == "artifact_attached" then ArtifactAttached
    else if s == "draft_pr_recorded" then DraftPrRecorded
    else if StartsWith(s, "entered_") && ParseState(s[8..]).Some? then Entered(ParseState(s[8..]).value)
    else OtherName(s)
  }

  /** `OtherName` stands only for texts that none of the other names stands for. */
  predicate CanonicalName(n: EventName) {
    n.OtherName? ==> ParseName(n.text) == n
  }

  lemma StateRoundTrip(s: State)
    ensures ParseState(StateText(s)) == Some(s)
  {
    var t := StateText(s);
    assert |"approved"| == 8 && |"executing"| == 9 && |"verifying"| == 9 && |"remediating"| == 11;
    assert |"publishing_draft_pr"| == 19 && |"completed"| == 9 && |"failed"| == 6 && |"blocked"| == 7;
    assert "executing"[0] == 'e' && "verifying"[0] == 'v' && "completed"[0] == 'c' && "cancelled"[1] == 'a';
    assert "completed"[1] == 'o';
  }

  lemma NameRoundTrip(n: EventName)
    requires CanonicalName(n)
    ensures ParseName(NameText(n)) == n
  {
    assert "approved"[0] == 'a' && "approved"[1] == 'p' && "artifact_attached"[0] == 'a' && "artifact_attached"[1] == 'r';
    assert "draft_pr_recorded"[0] == 'd' && "entered_"[0] == 'e' && |"entered_"| == 8;
    if n.Entered? {
      StateRoundTrip(n.target);
      var s := NameText(n);
      assert s[0] == 'e';
      assert s[8..] == StateText(n.target);
      assert s[..8] == "entered_";
    }
  }

  /** `isoformat`, `fromisoformat`, and `str` applied to a decoded JSON value. */
  datatype Codec = Codec(
    printTime: int -> string, parseTime: string -> Option<Reading>, show: Json -> string)

  ghost predicate TimesRoundTrip(codec: Codec) {
    forall t :: codec.parseTime(codec.printTime(t)) == Some(Aware(t))
  }

  /** Case mapping leaves texts alone that are already in the accepted case. */
  ghost predicate CaseIsStable(rules: Rules) {
    && (forall s | IsIssueKey(s) :: rules.upper(s) == s)
    && (forall s | IsSha256(s) :: rules.lower(s) == s)
  }

  // ---------------------------------------------------------------- serialization

  function OptionalText(s: Option<string>): Json {
    match s case None => JNull case Some(text) => JStr(text)
  }

  function SerializeDetails(details: Details): (r: seq<Json>)
    ensures |r| == |details|
    ensures forall i | 0 <= i < |r| :: r[i] == JArr([JStr(details[i].0), JStr(details[i].1)])
  {
    seq(|details|, i requires 0 <= i < |details| => JArr([JStr(details[i].0), JStr(details[i].1)]))
  }

  function SerializeEvent(codec: Codec, e: Event): Json {
    JObj(map[
      "sequence" := JNum(e.sequence as real),
      "name" := JStr(NameText(e.name)),
      "state" := JStr(StateText(e.state)),
      "actor_id" := JStr(e.actor),
      "occurred_at" := JStr(codec.printTime(e.at)),
      "details" := JArr(SerializeDetails(e.details))])
  }

  function SerializeArtifact(a: Artifact): Json {
    JObj(map[
      "artifact_id" := JStr(a.id),
      "kind" := JStr(a.kind),
      "uri" := JStr(a.uri),
      "sha256" := OptionalText(a.sha256)])
  }

  function SerializeCorrelation(c: Correlation): Json {
    JObj(map[
      "jira_issue_key" := JStr(c.issueKey),
      "jira_issue_url" := JStr(c.issueUrl),
      "jira_issue_revision" := JStr(c.revision),
      "jira_issue_content_sha256" := JStr(c.contentSha256),
      "repository_url" := JStr(c.repositoryUrl),
      "branch_name" := JStr(c.branch),
      "agent_assembly_run_id" := JStr(c.assemblyRunId)])
  }

  function SerializeEvents(codec: Codec, events: seq<Event>): (r: seq<Json>)
    ensures |r| == |events|
    ensures forall i | 0 <= i < |r| :: r[i] == SerializeEvent(codec, events[i])
  {
    seq(|events|, i requires 0 <= i < |events| => SerializeEvent(codec, events[i]))
  }

  function SerializeArtifacts(artifacts: seq<Artifact>): (r: seq<Json>)
    ensures |r| == |artifacts|
    ensures forall i | 0 <= i < |r| :: r[i] == SerializeArtifact(artifacts[i])
  {
    seq(|artifacts|, i requires 0 <= i < |artifacts| => SerializeArtifact(artifacts[i]))
  }

  function SerializeWorkRun(codec: Codec, run: WorkRun): Json {
    JObj(map[
      "run_id" := JStr(run.runId),
      "correlation" := SerializeCorrelation(run.correlation),
      "state" := JStr(StateText(run.state)),
      "events" := JArr(SerializeEvents(codec, run.events)),
      "artifacts" := JArr(SerializeArtifacts(run.artifacts)),
      "draft_pr_url" := OptionalText(run.draftPrUrl)])
  }

  function Envelope(codec: Codec, run: WorkRun): Json {
    JObj(map["schema_version" := JNum(1.0), "work_run" := SerializeWorkRun(codec, run)])
  }

  // ---------------------------------------------------------------- deserialization

  function Member(fields: map<string, Json>, key: string): Result<Json, Fault> {
    if key in fields then Ok(fields[key]) else Err(StoreFault)
  }

  function TextOf(j: Json): Result<string, Fault> {
    if j.JStr? then Ok(j.text) else Err(StoreFault)
  }

  function TextMember(fields: map<string, Json>, key: string): Result<string, Fault> {
    var j :- Member(fields, key);
    TextOf(j)
  }

  function FieldsOf(j: Json): Result<map<string, Json>, Fault> {
    if j.JObj? then Ok(j.fields) else Err(StoreFault)
  }

  /** A missing array reads as an empty one. */
  function ItemsMember(fields: map<string, Json>, key: string): Result<seq<Json>, Fault> {
    match Get(fields, key)
    case None => Ok([])
    case Some(JArr(items)) => Ok(items)
    case _ => Err(StoreFault)
  }

  function OptionalTextMember(fields: map<string, Json>, key: string): Result<Option<string>, Fault> {
    match Get(fields, key)
    case None | Some(JNull) => Ok(None)
    case Some(JStr(text)) => Ok(Some(text))
    case _ => Err(StoreFault)
  }

  function Rejected<T>(r: Result<T, Fault>): Result<T, Fault> {
    if r.Ok? then r else Err(StoreFault)
  }

  /** Numbers compare by value, and a boolean is a number. */
  function SequenceOf(j: Json): Result<int, Fault> {
    match j
    case JNum(n) => if n.Floor as real == n then Ok(n.Floor) else Err(StoreFault)
    case JBool(flag) => Ok(if flag then 1 else 0)
    case _ => Err(StoreFault)
  }

  /** `(str(pair[0]), str(pair[1]))` */
  function DeserializePair(codec: Codec, j: Json): Result<(string, string), Fault> {
    match j
    case JArr(items) =>
      if |items| >= 2 then Ok((ShownText(codec, items[0]), ShownText(codec, items[1]))) else Err(StoreFault)
    case JStr(text) => if |text| >= 2 then Ok(([text[0]], [text[1]])) else Err(StoreFault)
    case _ => Err(StoreFault)
  }

  function ShownText(codec: Codec, j: Json): string {
    if j.JStr? then j.text else codec.show(j)
  }

  function DeserializeDetails(codec: Codec, items: seq<Json>): Result<Details, Fault> {
    if items == [] then Ok([])
    else
      var front :- DeserializeDetails(codec, items[..|items| - 1]);
      var last :- DeserializePair(codec, items[|items| - 1]);
      Ok(front + [last])
  }

  function DeserializeEvent(rules: Rules, codec: Codec, j: Json): Result<Event, Fault> {
    var fields :- FieldsOf(j);
    var items :- ItemsMember(fields, "details");
    var details :- DeserializeDetails(codec, items);
    var time :- TextMember(fields, "occurred_at");
    var sequenceValue :- Member(fields, "sequence");
    var sequence :- SequenceOf(sequenceValue);
    var name :- TextMember(fields, "name");
    var stateText :- TextMember(fields, "state");
    var actor :- TextMember(fields, "actor_id");
    match (codec.parseTime(time), ParseState(stateText))
    case (Some(at), Some(state)) => Rejected(MakeEvent(rules, sequence, ParseName(Strip(name)), state, actor, at, details))
    case _ => Err(StoreFault)
  }

  function DeserializeArtifact(rules: Rules, j: Json): Result<Artifact, Fault> {
    var fields :- FieldsOf(j);
    var id :- TextMember(fields, "artifact_id");
    var kind :- TextMember(fields, "kind");
    var uri :- TextMember(fields, "uri");
    var digest :- OptionalTextMember(fields, "sha256");
    Rejected(MakeArtifact(rules, Artifact(id, kind, uri, digest)))
  }

  function DeserializeCorrelation(rules: Rules, j: Json): Result<Correlation, Fault> {
    var fields :- FieldsOf(j);
    var issueKey :- TextMember(fields, "jira_issue_key");
    var issueUrl :- TextMember(fields, "jira_issue_url");
    var revision :- TextMember(fields, "jira_issue_revision");
    var digest :- TextMember(fields, "jira_issue_content_sha256");
    var repositoryUrl :- TextMember(fields, "repository_url");
    var branch :- TextMember(fields, "branch_name");
    var assemblyRunId :- TextMember(fields, "agent_assembly_run_id");
    Rejected(MakeCorrelation(
      rules, Correlation(issueKey, issueUrl, revision, digest, repositoryUrl, branch, assemblyRunId)))
  }

  function DeserializeEvents(rules: Rules, codec: Codec, items: seq<Json>): Result<seq<Event>, Fault> {
    if items == [] then Ok([])
    else
      var front :- DeserializeEvents(rules, codec, items[..|items| - 1]);
      var last :- DeserializeEvent(rules, codec, items[|items| - 1]);
      Ok(front + [last])
  }

  function DeserializeArtifacts(rules: Rules, items: seq<Json>): Result<seq<Artifact>, Fault> {
    if items == [] then Ok([])
    else
      var front :- DeserializeArtifacts(rules, items[..|items| - 1]);
      var last :- DeserializeArtifact(rules, items[|items| - 1]);
      Ok(front + [last])
  }

  /** The schema version of the file is written but never read. */
  function Deserialize(rules: Rules, codec: Codec, payload: Json): Result<WorkRun, Fault> {
    var outer :- FieldsOf(payload);
    var bodyValue :- Member(outer, "work_run");
    var body :- FieldsOf(bodyValue);
    var correlationValue :- Member(body, "correlation");
    var correlation :- DeserializeCorrelation(rules, correlationValue);
    var eventsValue :- Member(body, "events");
    var events :- if eventsValue.JArr? then DeserializeEvents(rules, codec, eventsValue.items) else Err(StoreFault);
    var artifactItems :- ItemsMember(body, "artifacts");
    var artifacts :- DeserializeArtifacts(rules, artifactItems);
    var draftPrUrl :- OptionalTextMember(body, "draft_pr_url");
    var runId :- TextMember(body, "run_id");
    var stateText :- TextMember(body, "state");
    match ParseState(stateText)
    case None => Err(StoreFault)
    case Some(state) => Rejected(MakeWorkRun(rules, WorkRun(runId, correlation, state, events, artifacts, draftPrUrl)))
  }

  // ---------------------------------------------------------------- what a file can hold

  /** No event repeats a detail key. */
  predicate DistinctDetails(events: seq<Event>) {
    forall e | e in events :: DistinctKeys(e.details)
  }

  predicate CanonicalNames(events: seq<Event>) {
    forall e | e in events :: CanonicalName(e.name)
  }

  lemma {:induction false} EventsFromFile(rules: Rules, codec: Codec, items: seq<Json>)
    requires DeserializeEvents(rules, codec, items).Ok?
    ensures EventsProducible(rules, DeserializeEvents(rules, codec, items).value)
    ensures CanonicalNames(DeserializeEvents(rules, codec, items).value)
  {
    hide MakeEvent, CanonicalName, Producible;
    if items != [] {
      EventsFromFile(rules, codec, items[..|items| - 1]);
      EventFromFile(rules, codec, items[|items| - 1]);
    }
  }

  lemma ParsedIsCanonical(s: string)
    ensures CanonicalName(ParseName(s))
  {
  }

  lemma MadeName(
    rules: Rules, sequence: int, name: EventName, state: State, actor: string, at: Reading, details: Details)
    ensures
      var made := MakeEvent(rules, sequence, name, state, actor, at, details);
      made.Ok? ==> made.value.name == name
  {
  }

  lemma EventFromFile(rules: Rules, codec: Codec, j: Json)
    requires DeserializeEvent(rules, codec, j).Ok?
    ensures Producible(rules, DeserializeEvent(rules, codec, j).value)
    ensures CanonicalName(DeserializeEvent(rules, codec, j).value.name)
  {
    hide MakeEvent, ParseName, ParseState;
    var details := DeserializeDetails(codec, ItemsMember(j.fields, "details").value).value;
    var name := ParseName(Strip(j.fields["name"].text));
    var sequence := SequenceOf(j.fields["sequence"]).value;
    var state := ParseState(j.fields["state"].text).value;
    var at := codec.parseTime(j.fields["occurred_at"].text).value;
    ParsedIsCanonical(Strip(j.fields["name"].text));
    MadeName(rules, sequence, name, state, j.fields["actor_id"].text, at, details);
    EventIsProducible(rules, sequence, name, state, j.fields["actor_id"].text, at, details);
  }

  lemma {:induction false} ArtifactsFromFile(rules: Rules, items: seq<Json>)
    requires DeserializeArtifacts(rules, items).Ok?
    ensures ArtifactsOk(rules, DeserializeArtifacts(rules, items).value)
  {
    hide ArtifactOk;
    if items != [] {
      ArtifactsFromFile(rules, items[..|items| - 1]);
    }
  }

  lemma CorrelationFromFile(rules: Rules, j: Json)
    requires DeserializeCorrelation(rules, j).Ok?
    ensures CorrelationOk(rules, DeserializeCorrelation(rules, j).value)
  {
    hide CorrelationOk, TextMember;
  }

  /** Whatever the file contains: what loads at all is a work run with every part of its invariant. */
  lemma LoadedIsValid(rules: Rules, codec: Codec, payload: Json)
    requires Deserialize(rules, codec, payload).Ok?
    ensures Valid(rules, Deserialize(rules, codec, payload).value)
    ensures CanonicalNames(Deserialize(rules, codec, payload).value.events)
  {
    hide MakeEvent, DeserializeEvents, DeserializeArtifacts, DeserializeCorrelation, ParseState;
    hide Invariant, CorrelationOk, EventsProducible, ArtifactsOk, IsSpace, CanonicalNames;
    var body := payload.fields["work_run"].fields;
    CorrelationFromFile(rules, body["correlation"]);
    EventsFromFile(rules, codec, body["events"].items);
    ArtifactsFromFile(rules, ItemsMember(body, "artifacts").value);
    if OptionalTextMember(body, "draft_pr_url").value.Some? {
      StripIsTrimmed(body["draft_pr_url"].text);
    }
  }

  // ---------------------------------------------------------------- what comes back

  lemma {:induction false} DetailsRoundTrip(codec: Codec, details: Details)
    ensures DeserializeDetails(codec, SerializeDetails(details)) == Ok(details)
    decreases |details|
  {
    if details != [] {
      var items := SerializeDetails(details);
      var front := details[..|details| - 1];
      assert items[..|items| - 1] == SerializeDetails(front);
      DetailsRoundTrip(codec, front);
      assert DeserializePair(codec, items[|items| - 1]) == Ok(details[|details| - 1]);
      assert details == front + [details[|details| - 1]];
    } else {
      assert SerializeDetails(details) == [];
    }
  }

  lemma NameIsTrimmed(rules: Rules, e: Event)
    requires Producible(rules, e) && CanonicalName(e.name)
    ensures ParseName(Strip(NameText(e.name))) == e.name
  {
    hide StateText;
    NameRoundTrip(e.name);
    match e.name
    case ApprovedName => LiteralIsTrimmed("approved");
    case ArtifactAttached => LiteralIsTrimmed("artifact_attached");
    case DraftPrRecorded => LiteralIsTrimmed("draft_pr_recorded");
    case OtherName(text) => IdentifierIsTrimmed(text);
    case Entered(target) => EnteredIsTrimmed(target);
  }

  lemma EnteredIsTrimmed(target: State)
    ensures Strip("entered_" + StateText(target)) == "entered_" + StateText(target)
  {
    var s, t := "entered_" + StateText(target), StateText(target);
    assert |t| > 0 && s[0] == 'e' && s[|s| - 1] == t[|t| - 1];
    assert t[|t| - 1] == 'd' || t[|t| - 1] == 'g' || t[|t| - 1] == 'r' by {
      assert "approved"[7] == 'd' && "executing"[8] == 'g' && "verifying"[8] == 'g' && "remediating"[10] == 'g';
      assert "publishing_draft_pr"[18] == 'r' && "completed"[8] == 'd' && "failed"[5] == 'd';
      assert "blocked"[6] == 'd' && "cancelled"[8] == 'd';
    }
    LiteralIsTrimmed(s);
  }

  /** An event is read back if and only if its detail keys are distinct. */
  lemma EventRoundTrip(rules: Rules, codec: Codec, e: Event)
    requires TimesRoundTrip(codec) && Producible(rules, e) && CanonicalName(e.name)
    ensures
      DeserializeEvent(rules, codec, SerializeEvent(codec, e))
      == if DistinctKeys(e.details) then Ok(e) else Err(StoreFault)
  {
    hide ParseName, ParseState, NameText, StateText, DeserializeDetails, SerializeDetails, IsIdentifier, DetailOk, IsSpace;
    DetailsRoundTrip(codec, e.details);
    NameIsTrimmed(rules, e);
    StateRoundTrip(e.state);
    assert (e.sequence as real).Floor == e.sequence;
    if DistinctKeys(e.details) {
      Reproduce(rules, e);
    }
    assert codec.parseTime(codec.printTime(e.at)) == Some(Aware(e.at));
  }

  lemma FrontAndLast(rules: Rules, front: seq<Event>, last: Event)
    ensures DistinctDetails(front + [last]) <==> DistinctDetails(front) && DistinctKeys(last.details)
    ensures CanonicalNames(front + [last]) <==> CanonicalNames(front) && CanonicalName(last.name)
    ensures EventsProducible(rules, front + [last]) <==> EventsProducible(rules, front) && Producible(rules, last)
  {
    hide DistinctKeys, CanonicalName, Producible;
    assert last in front + [last];
    assert forall e | e in front :: e in front + [last];
    assert forall e | e in front + [last] :: e in front || e == last;
  }

  lemma {:induction false} EventsRoundTrip(rules: Rules, codec: Codec, events: seq<Event>)
    requires TimesRoundTrip(codec) && EventsProducible(rules, events) && CanonicalNames(events)
    ensures
      DeserializeEvents(rules, codec, SerializeEvents(codec, events))
      == if DistinctDetails(events) then Ok(events) else Err(StoreFault)
    decreases |events|
  {
    hide DeserializeEvent, SerializeEvent, DistinctDetails, EventsProducible, CanonicalNames, TimesRoundTrip;
    hide CanonicalName, Producible, DistinctKeys;
    var items := SerializeEvents(codec, events);
    if events == [] {
      assert DistinctDetails(events) by { NoEvents(events); }
    } else {
      var front := events[..|events| - 1];
      var last := events[|events| - 1];
      assert items[..|items| - 1] == SerializeEvents(codec, front);
      assert events == front + [last];
      FrontAndLast(rules, front, last);
      EventsRoundTrip(rules, codec, front);
      EventRoundTrip(rules, codec, last);
    }
  }

  lemma NoEvents(events: seq<Event>)
    requires events == []
    ensures DistinctDetails(events)
  {
  }

  lemma ArtifactRoundTrip(rules: Rules, a: Artifact)
    requires ArtifactOk(rules, a)
    ensures DeserializeArtifact(rules, SerializeArtifact(a)) == Ok(a)
  {
    IdentifierIsTrimmed(a.id);
    IdentifierIsTrimmed(a.kind);
    assert Strip(a.uri) == a.uri;
  }

  lemma {:induction false} ArtifactsRoundTrip(rules: Rules, artifacts: seq<Artifact>)
    requires ArtifactsOk(rules, artifacts)
    ensures DeserializeArtifacts(rules, SerializeArtifacts(artifacts)) == Ok(artifacts)
    decreases |artifacts|
  {
    hide ArtifactOk, DeserializeArtifact, SerializeArtifact;
    var items := SerializeArtifacts(artifacts);
    if artifacts != [] {
      var front := artifacts[..|artifacts| - 1];
      var last := artifacts[|artifacts| - 1];
      assert items[..|items| - 1] == SerializeArtifacts(front);
      assert artifacts == front + [last];
      assert last in artifacts;
      ArtifactsRoundTrip(rules, front);
      ArtifactRoundTrip(rules, last);
    }
  }

  lemma IssueKeyIsTrimmed(s: string)
    requires IsIssueKey(s)
    ensures Strip(s) == s
  {
    var parts := Split(s, '-');
    JoinSplit(s, '-');
    assert s == parts[0] + "-" + parts[1];
    assert AsciiUpper(s[0]) && AsciiDigit(s[|s| - 1]);
  }

  lemma Sha256IsTrimmed(s: string)
    requires IsSha256(s)
    ensures Strip(s) == s
  {
  }

  lemma RemakeCorrelation(rules: Rules, c: Correlation)
    requires CaseIsStable(rules) && CorrelationOk(rules, c)
    ensures MakeCorrelation(rules, c) == Ok(c)
  {
    hide IsIssueKey, IsIdentifier, IsSha256, IsSpace;
    IssueKeyIsTrimmed(c.issueKey);
    Sha256IsTrimmed(c.contentSha256);
    IdentifierIsTrimmed(c.revision);
    IdentifierIsTrimmed(c.branch);
    IdentifierIsTrimmed(c.assemblyRunId);
    assert Strip(c.issueUrl) == c.issueUrl && Strip(c.repositoryUrl) == c.repositoryUrl;
  }

  lemma CorrelationRoundTrip(rules: Rules, c: Correlation)
    requires CaseIsStable(rules) && CorrelationOk(rules, c)
    ensures DeserializeCorrelation(rules, SerializeCorrelation(c)) == Ok(c)
  {
    hide MakeCorrelation, CorrelationOk, CaseIsStable;
    RemakeCorrelation(rules, c);
  }

  /** The constructor changes nothing in a valid run. */
  lemma RebuildIsIdentity(rules: Rules, run: WorkRun)
    requires Valid(rules, run)
    ensures MakeWorkRun(rules, run) == Ok(run)
  {
    hide HistoryOk, DraftPrOk, CorrelationOk, EventsProducible, ArtifactsOk, IsSpace;
    IdentifierIsTrimmed(run.runId);
    if run.draftPrUrl.Some? {
      assert Strip(run.draftPrUrl.value) == run.draftPrUrl.value;
    }
  }

  /** How the parts of an envelope are read, given that each part is read back. */
  lemma EnvelopeIsRead(rules: Rules, codec: Codec, run: WorkRun)
    requires DeserializeCorrelation(rules, SerializeCorrelation(run.correlation)) == Ok(run.correlation)
    requires DeserializeArtifacts(rules, SerializeArtifacts(run.artifacts)) == Ok(run.artifacts)
    ensures
      Deserialize(rules, codec, Envelope(codec, run))
      == (var events := DeserializeEvents(rules, codec, SerializeEvents(codec, run.events));
          if events.Err? then Err(events.error)
          else Rejected(MakeWorkRun(rules, run.(events := events.value))))
  {
    hide DeserializeCorrelation, SerializeCorrelation, DeserializeArtifacts, DeserializeEvents;
    hide MakeWorkRun, StateText, ParseState;
    StateRoundTrip(run.state);
  }

  /**
   A saved run is read back exactly when no event repeats a detail key. Keys are compared for
   uniqueness before they are trimmed, so an event can pass its constructor with two keys that
   are equal after trimming; its file is then rejected on every later load.
   */
  lemma RoundTrip(rules: Rules, codec: Codec, run: WorkRun)
    requires TimesRoundTrip(codec) && CaseIsStable(rules)
    requires Valid(rules, run) && CanonicalNames(run.events)
    ensures
      Deserialize(rules, codec, Envelope(codec, run)) == if DistinctDetails(run.events) then Ok(run) else Err(StoreFault)
  {
    hide TimesRoundTrip, CaseIsStable, CanonicalNames, DistinctDetails, EventsProducible, Invariant;
    hide CorrelationOk, ArtifactsOk;
    hide DeserializeEvents, SerializeEvents, Deserialize, Envelope, MakeWorkRun;
    EventsRoundTrip(rules, codec, run.events);
    ArtifactsRoundTrip(rules, run.artifacts);
    CorrelationRoundTrip(rules, run.correlation);
    EnvelopeIsRead(rules, codec, run);
    RebuildIsIdentity(rules, run);
  }

  /** The schema version that a file states changes nothing about how it is read. */
  lemma VersionIsIgnored(rules: Rules, codec: Codec, fields: map<string, Json>, version: Json)
    ensures
      Deserialize(rules, codec, JObj(fields["schema_version" := version])) == Deserialize(rules, codec, JObj(fields))
  {
    hide DeserializeCorrelation, DeserializeEvents, DeserializeArtifacts, MakeWorkRun, ParseState;
    assert |"schema_version"| == 14 && |"work_run"| == 8;
  }

  predicate SameMember(a: map<string, Json>, b: map<string, Json>, name: string) {
    (name in a <==> name in b) && (name in a ==> a[name] == b[name])
  }

  lemma SameEvent(rules: Rules, codec: Codec, a: map<string, Json>, b: map<string, Json>)
    requires SameMember(a, b, "occurred_at") && SameMember(a, b, "name")
    requires SameMember(a, b, "state") && SameMember(a, b, "actor_id")
    requires "sequence" in a && "sequence" in b && SequenceOf(a["sequence"]) == SequenceOf(b["sequence"])
    requires "details" in a && a["details"].JArr? && "details" in b && b["details"].JArr?
    requires DeserializeDetails(codec, a["details"].items) == DeserializeDetails(codec, b["details"].items)
    ensures DeserializeEvent(rules, codec, JObj(a)) == DeserializeEvent(rules, codec, JObj(b))
  {
    hide ParseName, ParseState, MakeEvent, DeserializeDetails, SequenceOf;
  }

  lemma PairIsRead(codec: Codec, key: char, value: char)
    ensures DeserializeDetails(codec, [JStr([key, value])]) == Ok([([key], [value])])
  {
    var pair := [JStr([key, value])];
    assert pair[..0] == [] && DeserializeDetails(codec, []) == Ok([]);
    assert DeserializePair(codec, pair[0]) == Ok(([key], [value]));
    var none: Details := [];
    assert none + [([key], [value])] == [([key], [value])];
  }

  /** An event is also read with `true` for its number one, and with a pair of characters written as one text. */
  lemma LooseEventIsRead(rules: Rules, codec: Codec, e: Event, key: char, value: char)
    requires TimesRoundTrip(codec) && Producible(rules, e) && CanonicalName(e.name)
    requires e.sequence == 1 && e.details == [([key], [value])]
    ensures
      var strict := SerializeEvent(codec, e);
      var loose := strict.fields["sequence" := JBool(true)]["details" := JArr([JStr([key, value])])];
      DeserializeEvent(rules, codec, JObj(loose)) == Ok(e)
  {
    hide DeserializeEvent, DeserializeDetails, Producible, TimesRoundTrip, CanonicalName, NameText, StateText;
    EventRoundTrip(rules, codec, e);
    DetailsRoundTrip(codec, e.details);
    PairIsRead(codec, key, value);
    var strict := SerializeEvent(codec, e).fields;
    var loose := strict["sequence" := JBool(true)]["details" := JArr([JStr([key, value])])];
    assert |"sequence"| == 8 && |"details"| == 7 && |"occurred_at"| == 11 && |"name"| == 4 && |"state"| == 5;
    assert |"actor_id"| == 8 && "actor_id"[0] == 'a' && "sequence"[0] == 's';
    assert (1 as real).Floor == 1;
    SameEvent(rules, codec, loose, strict);
  }

  /** A concrete event with that defect: its keys differ only in surrounding space. */
  lemma TrimmedKeysCollide(rules: Rules)
    requires rules.sensitive("note") == false && !rules.control('x')
    ensures
      var e := MakeEvent(rules, 2, Entered(Executing), Executing, "agent", Aware(0), [("note", "x"), (" note", "x")]);
      e.Ok? && !DistinctKeys(e.value.details)
  {
    LiteralIsTrimmed("note");
    LiteralIsTrimmed("agent");
    LiteralIsTrimmed("x");
    assert Strip(" note") == "note" by { assert " note"[1..] == "note"; }
    var details := [("note", "x"), (" note", "x")];
    assert |"note"| == 4 && |" note"| == 5;
    assert DetailOk(rules, details[0]) && DetailOk(rules, details[1]);
    var trimmed := TrimDetails(details);
    assert trimmed[0].0 == trimmed[1].0;
  }

  // ---------------------------------------------------------------- the store

  /** Run ids may contain `/`; file names may not. */
  predicate SafeFilename(s: string) {
    SafeName(s, 255)
  }

  class JsonFileCheckpointStore {
    const rules: Rules
    const codec: Codec
    var files: map<string, Json>

    constructor (rules: Rules, codec: Codec)
      ensures this.rules == rules && this.codec == codec
      ensures files == map[]
    {
      this.rules := rules;
      this.codec := codec;
      files := map[];
    }

    /** What a load of `runId` gives in the present state; whatever it gives is a valid run. */
    function Loaded(runId: string): (r: Result<Option<WorkRun>, Fault>)
      reads this
      ensures r.Ok? && r.value.Some? ==> Valid(rules, r.value.value) && CanonicalNames(r.value.value.events)
    {
      if !SafeFilename(runId) then Err(StoreFault)
      else if runId !in files then Ok(None)
      else
        var run :- Deserialize(rules, codec, files[runId]);
        LoadedIsValid(rules, codec, files[runId]);
        Ok(Some(run))
    }

    /** A file that was written for `run` reads as `run`, unless the run repeats a detail key. */
    lemma Reads(run: WorkRun)
      requires TimesRoundTrip(codec) && CaseIsStable(rules) && Valid(rules, run) && CanonicalNames(run.events)
      requires SafeFilename(run.runId) && run.runId in files && files[run.runId] == Envelope(codec, run)
      ensures Loaded(run.runId) == if DistinctDetails(run.events) then Ok(Some(run)) else Err(StoreFault)
    {
      hide Valid, CanonicalNames, DistinctDetails, Deserialize, TimesRoundTrip, CaseIsStable;
      RoundTrip(rules, codec, run);
    }

    method Load(runId: string) returns (r: Result<Option<WorkRun>, Fault>)
      ensures r == Loaded(runId)
    {
      if !SafeFilename(runId) {
        return Err(StoreFault);
      }
      if runId !in files {
        return Ok(None);
      }
      var run :- Deserialize(rules, codec, files[runId]);
      return Ok(Some(run));
    }

    /**
     Compare-and-swap: the file is replaced exactly when what it holds is what the caller
     expects; no other file is touched; and what a later load finds is the saved run, unless
     the run repeats a detail key.
     */
    method Save(expected: Option<WorkRun>, updated: WorkRun) returns (r: Result<(), Fault>)
      modifies this`files
      ensures r == match old(Loaded(updated.runId))
                   case Err(fault) => Err(fault)
                   case Ok(current) => if current == expected then Ok(()) else Err(ConflictFault)
      ensures files == if r.Ok? then old(files)[updated.runId := Envelope(codec, updated)] else old(files)
      ensures forall id | id != updated.runId :: Loaded(id) == old(Loaded(id))
      ensures r.Ok? && TimesRoundTrip(codec) && CaseIsStable(rules)
              && Valid(rules, updated) && CanonicalNames(updated.events) ==>
                Loaded(updated.runId) == if DistinctDetails(updated.events) then Ok(Some(updated)) else Err(StoreFault)
    {
      hide Valid, CanonicalNames, DistinctDetails, Deserialize;
      var current :- Load(updated.runId);
      if current != expected {
        return Err(ConflictFault);
      }
      files := files[updated.runId := Envelope(codec, updated)];
      if TimesRoundTrip(codec) && CaseIsStable(rules)
         && Valid(rules, updated) && CanonicalNames(updated.events) {
        Reads(updated);
      }
      return Ok(());
    }
  }
}
