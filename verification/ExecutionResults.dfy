/** The executor contract: events, failures and results with the checks of their constructors. */
module ExecutionResults {
  import opened Wrappers
  import opened Text

  datatype Outcome = Completed | Blocked | Failed | Cancelled | TimedOut | ResourceExhausted

  datatype Category =
    | Policy | InvalidRequest | Provider | Tool | VerificationCategory | Resource | Timeout | CancelledCategory | Internal

  /** `ValueFault` is a constructor that raised, `IoFault` an operating-system error that nobody caught. */
  datatype SessionFault = ValueFault | IoFault | UsageFault

  /** `_required_text`: what is left after trimming, if it is not empty, short enough and plain. */
  predicate PlainLine(s: string, maximum: nat) {
    1 <= |s| <= maximum && !HasLowControl(s)
  }

  function RequiredText(value: string, maximum: nat): Result<string, SessionFault> {
    if PlainLine(Strip(value), maximum) then Ok(Strip(value)) else Err(ValueFault)
  }

  datatype Limits = Limits(maxEvents: nat, maxArtifacts: nat, maxArtifactBytes: nat)

  /** Room for `STARTED` and `TERMINAL`, at least. */
  predicate LimitsOk(limits: Limits) {
    limits.maxEvents >= 2 && limits.maxArtifacts >= 1 && limits.maxArtifactBytes >= 1
  }

  datatype Artifact = Artifact(path: string, mediaType: string, digest: string, size: nat)

  datatype Failure = Failure(category: Category, code: string, message: string)

  function MakeFailure(category: Category, code: string, message: string): Result<Failure, SessionFault> {
    var text :- RequiredText(message, 2048);
    Ok(Failure(category, code, text))
  }

  datatype Kind = Started | Progress | ToolStarted | ToolFinished | ArtifactKind | Terminal

  datatype Event = Event(sequence: nat, kind: Kind, message: string, artifact: Option<Artifact>)

  datatype ExecutionResult = ExecutionResult(
    executionId: string, outcome: Outcome, limits: Limits, eventsEmitted: nat, artifacts: seq<Artifact>,
    failure: Option<Failure>)

  function TotalBytes(artifacts: seq<Artifact>): nat {
    if artifacts == [] then 0 else TotalBytes(artifacts[..|artifacts| - 1]) + artifacts[|artifacts| - 1].size
  }

  predicate Permitted(outcome: Outcome, category: Category) {
    match outcome
    case Completed => false
    case Blocked => category.Policy?
    case Failed =>
      || category.InvalidRequest? || category.Provider? || category.Tool? || category.VerificationCategory?
      || category.Internal?
    case Cancelled => category.CancelledCategory?
    case TimedOut => category.Timeout?
    case ResourceExhausted => category.Resource?
  }

  /** The checks of the constructor of a result. */
  predicate ResultOk(r: ExecutionResult) {
    && 1 <= r.eventsEmitted <= r.limits.maxEvents
    && |r.artifacts| <= r.limits.maxArtifacts
    && TotalBytes(r.artifacts) <= r.limits.maxArtifactBytes
    && (r.failure.None? <==> r.outcome.Completed?)
    && (r.failure.Some? ==> Permitted(r.outcome, r.failure.value.category))
  }

  function MakeResult(r: ExecutionResult): Result<ExecutionResult, SessionFault> {
    if ResultOk(r) then Ok(r) else Err(ValueFault)
  }

  // ---------------------------------------------------------------- reasons to cancel

  /** An accepted reason is trimmed, short and plain. */
  predicate ReasonOk(reason: Option<string>) {
    reason.Some? ==> Trimmed(reason.value) && PlainLine(reason.value, 512)
  }

  /** A cancellation is accepted if its reason is a bounded plain text; the first one stays. */
  function AcceptReason(reason: Option<string>, text: string): Option<string> {
    if reason.None? && PlainLine(Strip(text), 512) then Some(Strip(text)) else reason
  }

  function AcceptReasons(reason: Option<string>, texts: seq<string>): Option<string>
    decreases |texts|
  {
    if texts == [] then reason else AcceptReasons(AcceptReason(reason, texts[0]), texts[1..])
  }

  /** The first acceptable reason is the one that stays. */
  lemma {:induction false} FirstReasonStays(reason: Option<string>, texts: seq<string>)
    requires ReasonOk(reason)
    ensures ReasonOk(AcceptReasons(reason, texts))
    ensures reason.Some? ==> AcceptReasons(reason, texts) == reason
    ensures reason.None? ==>
              match AcceptReasons(reason, texts)
              case None => forall i | 0 <= i < |texts| :: !PlainLine(Strip(texts[i]), 512)
              case Some(text) =>
                exists i | 0 <= i < |texts| ::
                  && text == Strip(texts[i])
                  && forall j | 0 <= j < i :: !PlainLine(Strip(texts[j]), 512)
    decreases |texts|
  {
    hide Strip, PlainLine, Trimmed;
    if texts != [] {
      StripIsTrimmed(texts[0]);
      var next := AcceptReason(reason, texts[0]);
      FirstReasonStays(next, texts[1..]);
      if reason.None? && next.None? {
        if AcceptReasons(None, texts[1..]).Some? {
          var text := AcceptReasons(None, texts[1..]).value;
          var i :| 0 <= i < |texts[1..]| && text == Strip(texts[1..][i])
            && forall j | 0 <= j < i :: !PlainLine(Strip(texts[1..][j]), 512);
          assert texts[i + 1] == texts[1..][i];
          assert forall j | 0 < j < i + 1 :: texts[j] == texts[1..][j - 1];
        } else {
          assert forall j | 0 < j < |texts| :: texts[j] == texts[1..][j - 1];
        }
      }
    }
  }
}
