/**
 What the work-management provider is told about a finished run. The update objects check their
 fields when they are built, so a report can fail before anything is sent.
 */
module OutcomeReports {
  import opened Wrappers
  import opened Text
  import opened WorkRuns
  import opened CheckpointValidation

  datatype Notice =
    | Completion(issueKey: string, idempotencyKey: string, summary: string, evidenceUrl: string)
    | Blocker(issueKey: string, idempotencyKey: string, summary: string, details: string)

  predicate NoControls(rules: Rules, s: string) {
    forall i | 0 <= i < |s| :: !rules.control(s[i])
  }

  /** `_required_text` */
  function RequiredText(rules: Rules, raw: string, limit: nat): Result<string, Fault> {
    var text := Strip(raw);
    if 1 <= |text| <= limit && NoControls(rules, text) then Ok(text) else Err(ValidationFault)
  }

  /** `_https_url_without_credentials` */
  function EvidenceUrl(rules: Rules, raw: string): Result<string, Fault> {
    var url :- RequiredText(rules, raw, 2048);
    if rules.reportUrl(url) then Ok(url) else Err(ValidationFault)
  }

  function CompletionUpdate(
    rules: Rules, issueKey: string, idempotencyKey: string, summary: string, url: string): Result<Notice, Fault>
  {
    var issueKey :- RequiredText(rules, issueKey, 256);
    var idempotencyKey :- RequiredText(rules, idempotencyKey, 256);
    var summary :- RequiredText(rules, summary, 512);
    var url :- EvidenceUrl(rules, url);
    Ok(Completion(issueKey, idempotencyKey, summary, url))
  }

  function BlockerUpdate(
    rules: Rules, issueKey: string, idempotencyKey: string, summary: string, details: string): Result<Notice, Fault>
  {
    var issueKey :- RequiredText(rules, issueKey, 256);
    var idempotencyKey :- RequiredText(rules, idempotencyKey, 256);
    var summary :- RequiredText(rules, summary, 512);
    var details :- RequiredText(rules, details, 10_000);
    Ok(Blocker(issueKey, idempotencyKey, summary, details))
  }

  function ReportKey(run: WorkRun): string {
    run.runId + ":report:" + StateText(run.state)
  }

  function CompletionSummary(): string {
    "GearMeshing-AI " + "completed " + "the governed " + "work run."
  }

  function EnteredText(s: State): string {
    "The work " + "run entered " + StateText(s) + "."
  }

  function LookupOr(details: Details, key: string, default: string): string {
    match Lookup(details, key)
    case Some(value) => value
    case None => default
  }

  /** The update that `_report_outcome` builds: none for other states, or the constructor's exception. */
  function NoticeOf(rules: Rules, run: WorkRun): Result<Option<Notice>, Fault> {
    if run.state.Completed? && run.draftPrUrl.Some? then
      var notice :- CompletionUpdate(
        rules, run.correlation.issueKey, ReportKey(run), CompletionSummary(), run.draftPrUrl.value);
      Ok(Some(notice))
    else if (run.state.Failed? || run.state.Blocked?) && run.events != [] then
      var details := run.events[|run.events| - 1].details;
      var notice :- BlockerUpdate(
        rules, run.correlation.issueKey, ReportKey(run),
        LookupOr(details, "failure_code", StateText(run.state)),
        LookupOr(details, "summary", EnteredText(run.state)));
      Ok(Some(notice))
    else Ok(None)
  }

  // ---------------------------------------------------------------- which runs can be reported

  predicate Printable(c: char) {
    ' ' <= c <= '~'
  }

  predicate AllPrintable(s: string) {
    forall i | 0 <= i < |s| :: Printable(s[i])
  }

  /** No printable ASCII character has a Unicode category `C*`. */
  ghost predicate PrintableIsPlain(rules: Rules) {
    forall c | Printable(c) :: !rules.control(c)
  }

  lemma PrintableText(rules: Rules, s: string, limit: nat)
    requires PrintableIsPlain(rules) && AllPrintable(s) && Trimmed(s) && s != ""
    ensures RequiredText(rules, s, limit) == if |s| <= limit then Ok(s) else Err(ValidationFault)
  {
    assert Strip(s) == s;
  }

  lemma PrintableConcat(a: string, b: string)
    requires AllPrintable(a) && AllPrintable(b)
    ensures AllPrintable(a + b)
  {
  }

  lemma StateTextIsPrintable(s: State)
    ensures AllPrintable(StateText(s)) && 6 <= |StateText(s)| <= 19
    ensures !IsSpace(StateText(s)[|StateText(s)| - 1])
  {
  }

  lemma IdentifierIsPrintable(s: string)
    requires IsIdentifier(s)
    ensures AllPrintable(s) && Trimmed(s)
  {
    forall i | 0 <= i < |s|
      ensures Printable(s[i])
    {
      assert IdentifierChar(s[i]);
    }
    IdentifierIsTrimmed(s);
  }

  lemma IssueKeyIsPrintable(s: string)
    requires IsIssueKey(s)
    ensures AllPrintable(s) && Trimmed(s) && s != ""
  {
    var parts := Split(s, '-');
    JoinSplit(s, '-');
    assert parts[1..] == [parts[1]];
    assert s == parts[0] + "-" + parts[1];
    forall i | 0 <= i < |s|
      ensures Printable(s[i])
    {
      assert s[i] == if i < |parts[0]| then parts[0][i] else if i == |parts[0]| then '-' else parts[1][i - |parts[0]| - 1];
    }
    assert s[0] == parts[0][0] && s[|s| - 1] == parts[1][|parts[1]| - 1];
  }

  lemma ReportKeyIsPrintable(run: WorkRun)
    requires IsIdentifier(run.runId)
    ensures AllPrintable(ReportKey(run)) && Trimmed(ReportKey(run)) && ReportKey(run) != ""
    ensures |ReportKey(run)| == |run.runId| + 8 + |StateText(run.state)|
  {
    IdentifierIsPrintable(run.runId);
    StateTextIsPrintable(run.state);
    assert AllPrintable(":report:");
    PrintableConcat(run.runId, ":report:");
    PrintableConcat(run.runId + ":report:", StateText(run.state));
  }

  /** The values of an accepted event are trimmed, not blank, bounded and free of control characters. */
  lemma ProducedValue(rules: Rules, e: Event, i: nat)
    requires Producible(rules, e) && i < |e.details|
    ensures SafeValue(rules, e.details[i].1) && Trimmed(e.details[i].1)
  {
    hide IsIdentifier, SafeValue, Strip;
    var raw: Details :| MakeEvent(rules, e.sequence, e.name, e.state, e.actor, Aware(e.at), raw) == Ok(e);
    assert DetailOk(rules, raw[i]);
    StripIsTrimmed(raw[i].1);
  }

  lemma SafeText(rules: Rules, s: string, limit: nat)
    requires SafeValue(rules, s) && Trimmed(s)
    ensures RequiredText(rules, s, limit) == if |s| <= limit then Ok(s) else Err(ValidationFault)
  {
    assert Strip(s) == s;
  }

  lemma RecordedUrlIsSafe(rules: Rules, run: WorkRun)
    requires Valid(rules, run) && run.draftPrUrl.Some?
    ensures SafeValue(rules, run.draftPrUrl.value) && Trimmed(run.draftPrUrl.value)
  {
    hide SafeValue, HistoryOk, CorrelationOk, ArtifactsOk, Producible, Lookup;
    var k := NamedFrom(run.events, DraftPrRecorded, 0);
    var e := run.events[k];
    assert e in run.events;
    var i := LookupIn(e.details, "draft_pr_url");
    ProducedValue(rules, e, i);
  }

  /**
   What a caller can check of a run before it is reported: the lengths of the keys, and for a
   completed run that its Draft PR URL has neither query nor odd host.
   */
  predicate Fits(rules: Rules, run: WorkRun) {
    && |run.correlation.issueKey| <= 256
    && |run.runId| + 8 + |StateText(run.state)| <= 256
    && (run.state.Completed? && run.draftPrUrl.Some? ==> rules.reportUrl(run.draftPrUrl.value))
  }

  lemma KeysAreAccepted(rules: Rules, run: WorkRun)
    requires PrintableIsPlain(rules) && Valid(rules, run)
    ensures
      var issueKey := run.correlation.issueKey;
      RequiredText(rules, issueKey, 256) == if |issueKey| <= 256 then Ok(issueKey) else Err(ValidationFault)
    ensures
      RequiredText(rules, ReportKey(run), 256)
      == if |run.runId| + 8 + |StateText(run.state)| <= 256 then Ok(ReportKey(run)) else Err(ValidationFault)
  {
    hide IsIssueKey, HistoryOk, EventsProducible, ArtifactsOk, DraftPrOk, ReportKey, StateText, RequiredText;
    hide PrintableIsPlain, AllPrintable;
    IssueKeyIsPrintable(run.correlation.issueKey);
    PrintableText(rules, run.correlation.issueKey, 256);
    ReportKeyIsPrintable(run);
    PrintableText(rules, ReportKey(run), 256);
  }

  lemma SummaryIsPrintable()
    ensures AllPrintable(CompletionSummary()) && Trimmed(CompletionSummary()) && 1 <= |CompletionSummary()| <= 512
  {
    var a, b, c, d := "GearMeshing-AI ", "completed ", "the governed ", "work run.";
    PrintableConcat(a, b);
    PrintableConcat(a + b, c);
    PrintableConcat(a + b + c, d);
    assert CompletionSummary() == a + b + c + d;
    assert (a + b + c + d)[0] == a[0] && (a + b + c + d)[|a + b + c + d| - 1] == d[|d| - 1];
  }

  lemma EnteredTextIsPrintable(s: State)
    ensures AllPrintable(EnteredText(s)) && Trimmed(EnteredText(s)) && 1 <= |EnteredText(s)| <= 10_000
  {
    hide StateText;
    var a, b, c := "The work ", "run entered ", StateText(s);
    StateTextIsPrintable(s);
    PrintableConcat(a, b);
    PrintableConcat(a + b, c);
    PrintableConcat(a + b + c, ".");
    assert (a + b + c + ".")[0] == a[0] && (a + b + c + ".")[|a + b + c|] == '.';
  }

  /** A completed run is reported with its Draft PR, or its update is refused: exactly when. */
  lemma CompletionIsReported(rules: Rules, run: WorkRun)
    requires PrintableIsPlain(rules) && Valid(rules, run) && run.state.Completed?
    ensures
      NoticeOf(rules, run)
      == if Fits(rules, run)
         then Ok(Some(Completion(
           run.correlation.issueKey, ReportKey(run), CompletionSummary(), run.draftPrUrl.value)))
         else Err(ValidationFault)
  {
    hide ReportKey, RequiredText, PrintableIsPlain, AllPrintable, StateText, SafeValue;
    assert run.draftPrUrl.Some?;
    KeysAreAccepted(rules, run);
    SummaryIsPrintable();
    PrintableText(rules, CompletionSummary(), 512);
    RecordedUrlIsSafe(rules, run);
    SafeText(rules, run.draftPrUrl.value, 2048);
    SafeLength(rules, run.draftPrUrl.value);
  }

  lemma SafeLength(rules: Rules, s: string)
    requires SafeValue(rules, s)
    ensures 1 <= |s| <= 2048
  {
  }

  /** The last event of a stopped run says why: a code, and the stage or a summary. */
  predicate StoppedWith(run: WorkRun, code: string, key: string, text: string) {
    && run.events != []
    && (if run.state.Failed? then key == "stage" else run.state.Blocked? && key == "summary")
    && run.events[|run.events| - 1].details == TrimDetails([("failure_code", code), (key, text)])
  }

  lemma LookupPair(code: string, key: string, text: string)
    requires key == "stage" || key == "summary"
    ensures
      var details := TrimDetails([("failure_code", code), (key, text)]);
      && Lookup(details, "failure_code") == Some(Strip(code))
      && Lookup(details, "summary") == if key == "summary" then Some(Strip(text)) else None
  {
    hide Strip;
    LiteralIsTrimmed("failure_code");
    LiteralIsTrimmed("stage");
    LiteralIsTrimmed("summary");
    LookupTwo("failure_code", Strip(code), key, Strip(text));
    var details := TrimDetails([("failure_code", code), (key, text)]);
    assert details == [("failure_code", Strip(code)), (key, Strip(text))];
    assert |"failure_code"| == 12 && |"stage"| == 5 && |"summary"| == 7;
  }

  lemma LookupTwo(firstKey: string, first: string, secondKey: string, second: string)
    requires firstKey != secondKey
    ensures
      var details := [(firstKey, first), (secondKey, second)];
      && Lookup(details, firstKey) == Some(first) && Lookup(details, secondKey) == Some(second)
      && forall key | key != firstKey && key != secondKey :: Lookup(details, key) == None
  {
    var details := [(firstKey, first), (secondKey, second)];
    var front := [(firstKey, first)];
    assert details[1] == (secondKey, second) && details[..1] == front;
    assert front[..0] == [];
    forall key | key != firstKey && key != secondKey
      ensures Lookup(details, key) == None
    {
      assert Lookup(front, key) == Lookup([], key) == None;
    }
  }

  /** What the blocker update says of a stopped run. */
  function BlockerDetails(run: WorkRun, text: string): string {
    if run.state.Blocked? then Strip(text) else EnteredText(run.state)
  }

  lemma StopValues(rules: Rules, run: WorkRun, code: string, key: string, text: string)
    requires Valid(rules, run) && StoppedWith(run, code, key, text) && |code| <= 512
    ensures RequiredText(rules, Strip(code), 512) == Ok(Strip(code))
    ensures RequiredText(rules, Strip(text), 10_000) == Ok(Strip(text))
  {
    hide SafeValue, HistoryOk, CorrelationOk, ArtifactsOk, Producible, DraftPrOk, Strip;
    var e := run.events[|run.events| - 1];
    assert e in run.events;
    ProducedValue(rules, e, 0);
    ProducedValue(rules, e, 1);
    StripIsTrimmed(code);
    SafeText(rules, Strip(code), 512);
    SafeText(rules, Strip(text), 10_000);
    SafeLength(rules, Strip(text));
  }

  lemma StopSays(rules: Rules, run: WorkRun, code: string, key: string, text: string)
    requires StoppedWith(run, code, key, text)
    ensures
      var update := BlockerUpdate(
        rules, run.correlation.issueKey, ReportKey(run), Strip(code), BlockerDetails(run, text));
      NoticeOf(rules, run) == if update.Ok? then Ok(Some(update.value)) else Err(update.error)
  {
    hide StateText, EnteredText, Lookup, TrimDetails, Strip, ReportKey, BlockerUpdate;
    LookupPair(code, key, text);
  }

  lemma BlockerIsBuilt(rules: Rules, issueKey: string, idempotencyKey: string, summary: string, details: string)
    requires RequiredText(rules, summary, 512) == Ok(summary) && RequiredText(rules, details, 10_000) == Ok(details)
    ensures
      BlockerUpdate(rules, issueKey, idempotencyKey, summary, details)
      == match RequiredText(rules, issueKey, 256)
         case Err(fault) => Err(fault)
         case Ok(item) =>
           match RequiredText(rules, idempotencyKey, 256)
           case Err(fault) => Err(fault)
           case Ok(key) => Ok(Blocker(item, key, summary, details))
  {
    hide RequiredText;
  }

  /** A run that the runner stopped is reported with its reason, or its update is refused: exactly when. */
  lemma StopIsReported(rules: Rules, run: WorkRun, code: string, key: string, text: string)
    requires PrintableIsPlain(rules) && Valid(rules, run) && StoppedWith(run, code, key, text) && |code| <= 512
    ensures
      NoticeOf(rules, run)
      == if Fits(rules, run)
         then Ok(Some(Blocker(
           run.correlation.issueKey, ReportKey(run), Strip(code), BlockerDetails(run, text))))
         else Err(ValidationFault)
  {
    hide ReportKey, RequiredText, PrintableIsPlain, AllPrintable, StateText, EnteredText, TrimDetails, Valid, NoticeOf;
    hide BlockerUpdate, Strip;
    KeysAreAccepted(rules, run);
    StopSays(rules, run, code, key, text);
    StopValues(rules, run, code, key, text);
    EnteredTextIsPrintable(run.state);
    PrintableText(rules, EnteredText(run.state), 10_000);
    BlockerIsBuilt(rules, run.correlation.issueKey, ReportKey(run), Strip(code), BlockerDetails(run, text));
  }
}
