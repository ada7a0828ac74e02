/**
 One run of the coding executor: a stream that numbers its events, stays within its limits,
 and can be cancelled at every point where it waits. What the outside world does at those points
 is a script: the lines that are read, and the cancellations that arrive meanwhile.
 */
module ClaudeSession {
  import opened Wrappers
  import opened Text
  import opened JsonValues
  import opened PosixPaths
  import opened ExecutionResults

  datatype Request = Request(
    executionId: string, content: string, tools: set<string>, limits: Limits, writablePaths: seq<string>)

  /** A changed file as the adapter finds it below the worktree. */
  datatype FileState = Missing | Unreadable | Present(digest: string, size: nat)

  /**
   Library functions and the worktree: the sorting of a set of texts, media types, files, and
   whether a path leaves the worktree through a link.
   */
  datatype Setting = Setting(
    sorted: set<string> -> seq<string>,
    mediaType: string -> string,
    file: string -> FileState,
    escapes: string -> bool,
    cancellable: bool)

  ghost predicate SettingOk(env: Setting) {
    forall texts: set<string> :: Sorted(env.sorted(texts), texts)
  }

  /** A list of the members of a set, each once. */
  ghost predicate Sorted(s: seq<string>, texts: set<string>) {
    && (forall t :: t in s <==> t in texts)
    && (forall i, j | 0 <= i < j < |s| :: s[i] != s[j])
  }

  const MESSAGE_LIMIT := 2048

  // The fixed texts of the adapter, in pieces short enough to reason about.
  const CLAUDE := "Claude Code"
  const NO_DETAIL := CLAUDE + " reported no " + "further detail"
  const TURN := CLAUDE + " produced " + "a turn"
  const INITIALIZED := CLAUDE + " session " + "initialized"
  const REPORTED_ERROR := CLAUDE + " reported " + "an error"
  const MALFORMED := CLAUDE + "'s result line " + "did not " + "include a " + "boolean " + "is_error field"
  const REPORTED := CLAUDE + " reported " + "a change"
  const OUTSIDE := REPORTED + " outside the " + "governed " + "workspace " + "boundary: "
  const UNGRANTED := REPORTED + " outside its " + "granted " + "writable " + "paths: "
  const ESCAPES := REPORTED + " that escapes " + "the isolated " + "worktree: "
  const UNREADABLE := REPORTED + "d file that " + "could not " + "be read"
  const NOT_FOUND := REPORTED + "d file that " + "does not " + "exist: "
  const EXCEEDS := "The execution " + "plan exceeds " + "its "
  const NO_RESULT_IN_TIME :=
    CLAUDE + " did not " + "report a " + "terminal result " + "within its " + "wall-clock limit"
  const STREAM_FAILED :=
    CLAUDE + "'s output " + "stream failed " + "before " + "reporting a " + "terminal result"
  const EXITED := CLAUDE + " exited " + "before " + "reporting a " + "terminal result"

  const ELLIPSIS := '\U{2026}'

  function Truncated(value: string): string {
    var normalized := Squeezed(value);
    if normalized == "" then NO_DETAIL
    else if |normalized| <= MESSAGE_LIMIT then normalized
    else normalized[..MESSAGE_LIMIT - 1] + [ELLIPSIS]
  }

  // ---------------------------------------------------------------- lines

  /** What one wait for a line brings; `Line(None)` is a line that is no JSON object. */
  datatype Read = Line(payload: Option<map<string, Json>>) | ReadTimeout | ReadError | EndOfStream

  /**
   One round of the loop: whether the deadline has passed, what the read brings, the
   cancellations during it, and those while the event that follows is being consumed.
   */
  datatype Turn = Turn(expired: bool, read: Read, during: seq<string>, after: seq<string>)

  /**
   A whole run. `atEnd(0)` are the cancellations while the process is awaited after the loop,
   `atEnd(k)` those after the `k`-th artifact event. When the turns run out, the deadline has passed.
   */
  datatype Script = Script(
    atStart: seq<string>, launched: bool, turns: seq<Turn>, atEnd: nat -> seq<string>)

  datatype Pending = Pending(kind: Kind, message: string, tool: Option<string>)

  function TypeOf(payload: map<string, Json>): string {
    match Get(payload, "type")
    case Some(JStr(name)) => name
    case _ => ""
  }

  function ToolName(payload: map<string, Json>): string {
    match Get(payload, "name")
    case Some(JStr(name)) => if Strip(name) != "" then Strip(name) else "unknown_tool"
    case _ => "unknown_tool"
  }

  function TextBlocks(items: seq<Json>): seq<string> {
    if items == [] then []
    else
      var rest := TextBlocks(items[1..]);
      match items[0]
      case JObj(fields) =>
        if Get(fields, "type") == Some(JStr("text")) && Get(fields, "text").Some? && Get(fields, "text").value.JStr?
        then [Get(fields, "text").value.text] + rest else rest
      case _ => rest
  }

  function AssistantText(payload: map<string, Json>): string {
    match Get(payload, "message")
    case Some(JObj(message)) =>
      (match Get(message, "content")
       case Some(JArr(items)) => Join(TextBlocks(items), " ")
       case _ => "")
    case _ => ""
  }

  /** Lines that stand for progress; the others are skipped. */
  function Translate(payload: map<string, Json>): Option<Pending> {
    var name := TypeOf(payload);
    if name == "assistant" then
      var text := AssistantText(payload);
      Some(Pending(Progress, if text != "" then Truncated(text) else TURN, None))
    else if name == "system" then Some(Pending(Progress, INITIALIZED, None))
    else if name == "tool_use" then Some(Pending(ToolStarted, "Tool started: " + ToolName(payload), Some(ToolName(payload))))
    else if name == "tool_result" then
      Some(Pending(ToolFinished, "Tool finished: " + ToolName(payload), Some(ToolName(payload))))
    else None
  }

  /** Building an event checks its message, and for a tool its name. */
  function MakeEvent(sequence: nat, pending: Pending): Result<Event, SessionFault> {
    var message :- RequiredText(pending.message, MESSAGE_LIMIT);
    if pending.tool.Some? && RequiredText(pending.tool.value, 1024).Err? then Err(ValueFault)
    else Ok(Event(sequence, pending.kind, message, None))
  }

  // ---------------------------------------------------------------- the result line

  datatype Ending = Ending(outcome: Outcome, failure: Option<Failure>, artifacts: seq<Artifact>)

  /** Why an execution did not complete. */
  datatype Cause =
    | ReportedError(summary: string)
    | MalformedResult
    | OutsideBoundary(path: string)
    | OutsideWritablePaths(path: string)
    | EscapesWorktree(path: string)
    | FileUnreadable
    | FileNotFound(path: string)
    | EventLimit
    | ArtifactCountLimit
    | ArtifactByteLimit
    | CancelledByCaller(reason: string)
    | WallClockExceeded
    | ProcessIoError
    | ExitedWithoutResult

  function OutcomeOf(cause: Cause): Outcome {
    match cause
    case OutsideBoundary(_) | OutsideWritablePaths(_) | EscapesWorktree(_) => Blocked
    case EventLimit | ArtifactCountLimit | ArtifactByteLimit => ResourceExhausted
    case CancelledByCaller(_) => Cancelled
    case WallClockExceeded => TimedOut
    case _ => Failed
  }

  function CategoryOf(cause: Cause): Category {
    match cause
    case OutsideBoundary(_) | OutsideWritablePaths(_) | EscapesWorktree(_) => Policy
    case EventLimit | ArtifactCountLimit | ArtifactByteLimit => Resource
    case CancelledByCaller(_) => CancelledCategory
    case WallClockExceeded => Timeout
    case _ => Provider
  }

  function CodeOf(cause: Cause): string {
    match cause
    case ReportedError(_) => "claude_code_reported_error"
    case MalformedResult => "malformed_result_payload"
    case OutsideBoundary(_) => "changed_file_outside_governed_boundary"
    case OutsideWritablePaths(_) => "changed_file_outside_writable_paths"
    case EscapesWorktree(_) => "changed_file_escapes_worktree"
    case FileUnreadable => "changed_file_unreadable"
    case FileNotFound(_) => "changed_file_not_found"
    case EventLimit | ArtifactCountLimit | ArtifactByteLimit => "execution_limit_exhausted"
    case CancelledByCaller(_) => "cancelled_by_caller"
    case WallClockExceeded => "wall_clock_exceeded"
    case ProcessIoError => "process_io_error"
    case ExitedWithoutResult => "process_exited_without_result"
  }

  function MessageOf(cause: Cause): string {
    match cause
    case ReportedError(summary) => summary
    case MalformedResult => MALFORMED
    case OutsideBoundary(path) => OUTSIDE + path
    case OutsideWritablePaths(path) => UNGRANTED + path
    case EscapesWorktree(path) => ESCAPES + path
    case FileUnreadable => UNREADABLE
    case FileNotFound(path) => NOT_FOUND + path
    case EventLimit => EXCEEDS + "event limit"
    case ArtifactCountLimit => EXCEEDS + "artifact " + "count limit"
    case ArtifactByteLimit => EXCEEDS + "artifact " + "byte limit"
    case CancelledByCaller(reason) => reason
    case WallClockExceeded => NO_RESULT_IN_TIME
    case ProcessIoError => STREAM_FAILED
    case ExitedWithoutResult => EXITED
  }

  /** An unsuccessful end, unless its message is too long or not plain: then building it raises. */
  function Fails(cause: Cause): (r: Result<Ending, SessionFault>)
    ensures r.Ok? ==> !r.value.outcome.Completed? && r.value.outcome == OutcomeOf(cause) && r.value.artifacts == []
    ensures r.Ok? ==> r.value.failure == Some(Failure(CategoryOf(cause), CodeOf(cause), Strip(MessageOf(cause))))
  {
    var failure :- MakeFailure(CategoryOf(cause), CodeOf(cause), MessageOf(cause));
    Ok(Ending(OutcomeOf(cause), Some(failure), []))
  }

  function StringsIn(items: seq<Json>): set<string> {
    set j | j in items && j.JStr? :: j.text
  }

  function ChangedFiles(env: Setting, payload: map<string, Json>): seq<string> {
    match Get(payload, "changed_files")
    case Some(JArr(items)) => env.sorted(StringsIn(items))
    case _ => []
  }

  predicate WithinWritablePaths(path: string, writablePaths: seq<string>) {
    exists w | w in writablePaths :: path == w || IsParent(w, path)
  }

  /** The change is inside the governed workspace. */
  predicate Governed(env: Setting, writablePaths: seq<string>, path: string) {
    && RelativeNormal(path)
    && (writablePaths != [] ==> WithinWritablePaths(path, writablePaths))
    && !env.escapes(path)
  }

  function ViolationOf(env: Setting, writablePaths: seq<string>, path: string): Cause {
    if !RelativeNormal(path) then OutsideBoundary(path)
    else if writablePaths != [] && !WithinWritablePaths(path, writablePaths) then OutsideWritablePaths(path)
    else EscapesWorktree(path)
  }

  /** The first change outside the governed workspace, if there is one. */
  function FirstViolation(env: Setting, writablePaths: seq<string>, files: seq<string>): Option<string> {
    if files == [] then None
    else if !Governed(env, writablePaths, files[0]) then Some(files[0])
    else FirstViolation(env, writablePaths, files[1..])
  }

  method BoundaryViolation(env: Setting, writablePaths: seq<string>, files: seq<string>) returns (r: Option<string>)
    ensures r == FirstViolation(env, writablePaths, files)
    ensures r.None? <==> forall f | f in files :: Governed(env, writablePaths, f)
  {
    hide Governed;
    var i := 0;
    while i < |files|
      invariant 0 <= i <= |files|
      invariant FirstViolation(env, writablePaths, files) == FirstViolation(env, writablePaths, files[i..])
      invariant forall k | 0 <= k < i :: Governed(env, writablePaths, files[k])
    {
      assert files[i..][1..] == files[i + 1..];
      if !Governed(env, writablePaths, files[i]) {
        return Some(files[i]);
      }
      i := i + 1;
    }
    return None;
  }

  datatype Built = Built(artifacts: seq<Artifact>) | MissingFile(path: string) | UnreadableFile

  /** The constructor of an artifact; digests come from the hash function. */
  function MakeArtifact(env: Setting, path: string, digest: string, size: nat): Result<Artifact, SessionFault> {
    var name :- RequiredText(path, 1024);
    var media :- RequiredText(env.mediaType(path), 128);
    if name == "." || !RelativeNormal(name) || size == 0 then Err(ValueFault) else Ok(Artifact(name, media, digest, size))
  }

  /** Reads the changed files in order; empty files leave no artifact. */
  function BuildArtifacts(env: Setting, files: seq<string>): Result<Built, SessionFault> {
    if files == [] then Ok(Built([]))
    else
      var front :- BuildArtifacts(env, files[..|files| - 1]);
      var path := files[|files| - 1];
      if !front.Built? then Ok(front)
      else
        match env.file(path)
        case Missing => Ok(MissingFile(path))
        case Unreadable => Ok(UnreadableFile)
        case Present(digest, size) =>
          if size == 0 then Ok(front)
          else
            var artifact :- MakeArtifact(env, path, digest, size);
            Ok(Built(front.artifacts + [artifact]))
  }

  lemma {:induction false} BuildStops(env: Setting, files: seq<string>, n: nat)
    requires n <= |files|
    requires var front := BuildArtifacts(env, files[..n]); front.Err? || !front.value.Built?
    ensures BuildArtifacts(env, files) == BuildArtifacts(env, files[..n])
    decreases |files|
  {
    if n < |files| {
      assert files[..|files| - 1][..n] == files[..n];
      BuildStops(env, files[..|files| - 1], n);
    } else {
      assert files[..n] == files;
    }
  }

  /** The loop of `_build_artifacts`: it stops at the first file that is missing or cannot be read. */
  method CollectArtifacts(env: Setting, files: seq<string>) returns (r: Result<Built, SessionFault>)
    ensures r == BuildArtifacts(env, files)
  {
    hide MakeArtifact;
    var artifacts: seq<Artifact> := [];
    var i := 0;
    while i < |files|
      invariant 0 <= i <= |files|
      invariant BuildArtifacts(env, files[..i]) == Ok(Built(artifacts))
    {
      var path := files[i];
      assert files[..i + 1][..i] == files[..i];
      match env.file(path) {
        case Missing =>
          BuildStops(env, files, i + 1);
          return Ok(MissingFile(path));
        case Unreadable =>
          BuildStops(env, files, i + 1);
          return Ok(UnreadableFile);
        case Present(digest, size) =>
          if size > 0 {
            var artifact := MakeArtifact(env, path, digest, size);
            if artifact.Err? {
              BuildStops(env, files, i + 1);
              return Err(artifact.error);
            }
            artifacts := artifacts + [artifact.value];
          }
      }
      i := i + 1;
    }
    assert files[..i] == files;
    return Ok(Built(artifacts));
  }

  function FinalizeResult(env: Setting, request: Request, payload: map<string, Json>, sequence: nat)
    : Result<Ending, SessionFault>
  {
    match Get(payload, "is_error")
    case Some(JBool(true)) =>
      var message := match Get(payload, "result")
        case Some(JStr(summary)) => if summary != "" then Truncated(summary) else REPORTED_ERROR
        case _ => REPORTED_ERROR;
      Fails(ReportedError(message))
    case Some(JBool(false)) => FinalizeChanges(env, request, ChangedFiles(env, payload), sequence)
    case _ => Fails(MalformedResult)
  }

  function FinalizeChanges(env: Setting, request: Request, files: seq<string>, sequence: nat)
    : Result<Ending, SessionFault>
  {
    match FirstViolation(env, request.writablePaths, files)
    case Some(path) => Fails(ViolationOf(env, request.writablePaths, path))
    case None =>
      var built :- BuildArtifacts(env, files);
      match built
      case UnreadableFile => Fails(FileUnreadable)
      case MissingFile(path) => Fails(FileNotFound(path))
      case Built(artifacts) =>
        if sequence + |artifacts| + 1 > request.limits.maxEvents then Fails(EventLimit)
        else if |artifacts| > request.limits.maxArtifacts then Fails(ArtifactCountLimit)
        else if TotalBytes(artifacts) > request.limits.maxArtifactBytes then Fails(ArtifactByteLimit)
        else Ok(Ending(Completed, None, artifacts))
  }

  // ---------------------------------------------------------------- cancellation

  /** The accepted cancellation after some more, if the executor supports cancelling at all. */
  function AcceptAll(env: Setting, reason: Option<string>, texts: seq<string>): Option<string> {
    if env.cancellable then AcceptReasons(reason, texts) else reason
  }

  /** A read step: a line, or the reason why there is none. */
  datatype Step = Got(payload: Option<map<string, Json>>) | Stop(ending: Result<Ending, SessionFault>)

  /** Whether the step gets as far as waiting for a line. */
  predicate Waits(turn: Turn, before: Option<string>) {
    before.None? && !turn.expired
  }

  /** The accepted cancellation when the step returns. */
  function Heard(env: Setting, turn: Turn, before: Option<string>): Option<string> {
    if Waits(turn, before) then AcceptAll(env, before, turn.during) else before
  }

  function ReadStep(turn: Turn, before: Option<string>, after: Option<string>): Step {
    if before.Some? then Stop(Fails(CancelledByCaller(before.value)))
    else if turn.expired || turn.read.ReadTimeout? then Stop(Fails(WallClockExceeded))
    else if turn.read.ReadError? then Stop(Fails(ProcessIoError))
    else if after.Some? then Stop(Fails(CancelledByCaller(after.value)))
    else if turn.read.EndOfStream? then Stop(Fails(ExitedWithoutResult))
    else Got(turn.read.payload)
  }

  // ---------------------------------------------------------------- the run as a function

  /** The events of the loop, how it ends (or what it raises), and the cancellation by then. */
  datatype LoopEnd = LoopEnd(events: seq<Event>, ending: Result<Ending, SessionFault>, reason: Option<string>)

  /** What becomes of a line: the loop goes on, goes on after an event, or ends. */
  datatype Reaction = Skip | Emit(event: Event) | Finish(ending: Result<Ending, SessionFault>)

  function React(env: Setting, request: Request, payload: Option<map<string, Json>>, sequence: nat): Reaction {
    match payload
    case None => Skip
    case Some(fields) =>
      if TypeOf(fields) == "result" then Finish(FinalizeResult(env, request, fields, sequence))
      else
        match Translate(fields)
        case None => Skip
        case Some(pending) =>
          if sequence + 2 > request.limits.maxEvents then Finish(Fails(EventLimit))
          else
            match MakeEvent(sequence + 1, pending)
            case Err(fault) => Finish(Err(fault))
            case Ok(event) => Emit(event)
  }

  function Loop(env: Setting, request: Request, turns: seq<Turn>, reason: Option<string>, sequence: nat): LoopEnd
    decreases |turns|
  {
    if turns == [] then LoopEnd([], Expired(reason), reason)
    else
      var heard := Heard(env, turns[0], reason);
      match ReadStep(turns[0], reason, heard)
      case Stop(ending) => LoopEnd([], ending, heard)
      case Got(payload) =>
        match React(env, request, payload, sequence)
        case Finish(ending) => LoopEnd([], ending, heard)
        case Skip => Loop(env, request, turns[1..], heard, sequence)
        case Emit(event) =>
          var rest := Loop(env, request, turns[1..], AcceptAll(env, heard, turns[0].after), sequence + 1);
          LoopEnd([event] + rest.events, rest.ending, rest.reason)
  }

  /** The read step once the deadline has passed. */
  function Expired(reason: Option<string>): Result<Ending, SessionFault> {
    if reason.Some? then Fails(CancelledByCaller(reason.value)) else Fails(WallClockExceeded)
  }

  datatype Transcript = Transcript(
    events: seq<Event>, result: Option<ExecutionResult>, raised: Option<SessionFault>, reason: Option<string>)

  function ArtifactEvent(sequence: nat, artifact: Artifact): Event {
    Event(sequence, ArtifactKind, "Produced artifact " + artifact.path, Some(artifact))
  }

  /** One event for each artifact, numbered from `first`. */
  function ArtifactEvents(first: nat, artifacts: seq<Artifact>): (r: seq<Event>)
    ensures |r| == |artifacts|
    ensures forall i | 0 <= i < |r| :: r[i] == ArtifactEvent(first + i, artifacts[i])
  {
    seq(|artifacts|, i requires 0 <= i < |artifacts| => ArtifactEvent(first + i, artifacts[i]))
  }

  /** The cancellation after the loop's end and `n` artifact events. */
  function LateReason(env: Setting, reason: Option<string>, atEnd: nat -> seq<string>, n: nat): Option<string> {
    if n == 0 then AcceptAll(env, reason, atEnd(0))
    else AcceptAll(env, LateReason(env, reason, atEnd, n - 1), atEnd(n))
  }

  const STARTED := Event(1, Started, "Claude Code execution started", None)

  function TerminalEvent(sequence: nat): Event {
    Event(sequence, Terminal, "Execution reached a terminal outcome", None)
  }

  function Settled(request: Request, sequence: nat, ending: Ending): ExecutionResult {
    ExecutionResult(
      request.executionId, ending.outcome, request.limits, sequence, ending.artifacts, ending.failure)
  }

  /** The whole stream, for a session with this accepted cancellation so far. */
  function Play(env: Setting, request: Request, reason: Option<string>, script: Script): Transcript {
    var first := AcceptAll(env, reason, script.atStart);
    if !script.launched then Transcript([STARTED], None, Some(IoFault), first)
    else
      var loop := Loop(env, request, script.turns, first, 1);
      match loop.ending
      case Err(fault) =>
        Transcript([STARTED] + loop.events, None, Some(fault), LateReason(env, loop.reason, script.atEnd, 0))
      case Ok(ending) =>
        var n := 1 + |loop.events|;
        var before := [STARTED] + loop.events + ArtifactEvents(n + 1, ending.artifacts);
        var late := LateReason(env, loop.reason, script.atEnd, |ending.artifacts|);
        match MakeResult(Settled(request, |before| + 1, ending))
        case Err(fault) => Transcript(before, None, Some(fault), late)
        case Ok(result) => Transcript(before + [TerminalEvent(|before| + 1)], Some(result), None, late)
  }

  // ---------------------------------------------------------------- what every stream is like

  predicate Numbered(events: seq<Event>, first: nat) {
    forall i | 0 <= i < |events| :: events[i].sequence == first + i
  }

  /** No event here is the first or the last of a stream, or an artifact. */
  predicate OnlyProgress(events: seq<Event>) {
    forall i | 0 <= i < |events| ::
      (events[i].kind.Progress? || events[i].kind.ToolStarted? || events[i].kind.ToolFinished?) && events[i].artifact.None?
  }

  /** How a loop that has emitted `sequence` events may end: as the result's checks demand. */
  predicate EndingFits(request: Request, sequence: nat, ending: Ending) {
    if ending.outcome.Completed? then
      && ending.failure.None?
      && sequence + |ending.artifacts| + 1 <= request.limits.maxEvents
      && |ending.artifacts| <= request.limits.maxArtifacts
      && TotalBytes(ending.artifacts) <= request.limits.maxArtifactBytes
    else
      && ending.failure.Some? && Permitted(ending.outcome, ending.failure.value.category)
      && ending.artifacts == []
      && sequence + 1 <= request.limits.maxEvents
  }

  lemma FinalizeFits(env: Setting, request: Request, payload: map<string, Json>, sequence: nat)
    requires sequence + 1 <= request.limits.maxEvents
    ensures
      var r := FinalizeResult(env, request, payload, sequence);
      r.Ok? ==> EndingFits(request, sequence, r.value)
  {
    hide FirstViolation, BuildArtifacts, ChangedFiles, Fails, Truncated, CodeOf, MessageOf;
  }

  /** The events of the loop continue the numbering, and its end leaves room for what follows. */
  lemma {:induction false} LoopShape(
    env: Setting, request: Request, turns: seq<Turn>, reason: Option<string>, sequence: nat)
    requires sequence + 1 <= request.limits.maxEvents
    ensures
      var loop := Loop(env, request, turns, reason, sequence);
      && Numbered(loop.events, sequence + 1) && OnlyProgress(loop.events)
      && sequence + |loop.events| + 1 <= request.limits.maxEvents
      && (loop.ending.Ok? ==> EndingFits(request, sequence + |loop.events|, loop.ending.value))
    decreases |turns|
  {
    hide FinalizeResult, AcceptAll, EndingFits, React, ReadStep, Heard, Expired;
    if turns == [] {
      ExpiredFits(request, sequence, reason);
    } else {
      var heard := Heard(env, turns[0], reason);
      StopFits(request, sequence, turns[0], reason, heard);
      match ReadStep(turns[0], reason, heard)
      case Stop(ending) =>
      case Got(payload) =>
        ReactFits(env, request, payload, sequence);
        match React(env, request, payload, sequence)
        case Finish(_) =>
        case Skip => LoopShape(env, request, turns[1..], heard, sequence);
        case Emit(event) =>
          LoopShape(env, request, turns[1..], AcceptAll(env, heard, turns[0].after), sequence + 1);
    }
  }

  lemma ExpiredFits(request: Request, sequence: nat, reason: Option<string>)
    requires sequence + 1 <= request.limits.maxEvents
    ensures Expired(reason).Ok? ==> EndingFits(request, sequence, Expired(reason).value)
  {
    hide Fails, CodeOf, MessageOf;
  }

  lemma StopFits(request: Request, sequence: nat, turn: Turn, before: Option<string>, after: Option<string>)
    requires sequence + 1 <= request.limits.maxEvents
    ensures
      var step := ReadStep(turn, before, after);
      step.Stop? && step.ending.Ok? ==> EndingFits(request, sequence, step.ending.value)
  {
    hide Fails, CodeOf, MessageOf;
  }

  lemma ReactFits(env: Setting, request: Request, payload: Option<map<string, Json>>, sequence: nat)
    requires sequence + 1 <= request.limits.maxEvents
    ensures
      match React(env, request, payload, sequence)
      case Skip => true
      case Finish(ending) => ending.Ok? ==> EndingFits(request, sequence, ending.value)
      case Emit(event) =>
        && event.sequence == sequence + 1 && OnlyProgress([event])
        && sequence + 2 <= request.limits.maxEvents
  {
    hide FinalizeResult, Fails, CodeOf, MessageOf, Truncated, AssistantText, ToolName, RequiredText;
    if payload.Some? && TypeOf(payload.value) == "result" {
      FinalizeFits(env, request, payload.value, sequence);
    }
  }

  /** `STARTED` comes first and only there; `TERMINAL`, if at all, comes last. */
  predicate WellOrdered(events: seq<Event>) {
    && events != []
    && Numbered(events, 1)
    && (forall i | 0 <= i < |events| :: events[i].kind.Started? <==> i == 0)
    && (forall i | 0 <= i < |events| - 1 :: !events[i].kind.Terminal?)
  }

  /** The artifact events of a settled stream are the ones just before `TERMINAL`. */
  predicate ArtifactsBeforeTerminal(events: seq<Event>, artifacts: seq<Artifact>) {
    && |events| > |artifacts|
    && (forall i | 0 <= i < |events| ::
          events[i].kind.ArtifactKind? <==> |events| - 1 - |artifacts| <= i < |events| - 1)
    && (forall i | 0 <= i < |artifacts| :: events[|events| - 1 - |artifacts| + i].artifact == Some(artifacts[i]))
  }

  /** What a settled stream is like: it ends with its only `TERMINAL` and reports its own length. */
  predicate SettledOk(request: Request, t: Transcript, ending: Ending) {
    && WellOrdered(t.events) && t.events[|t.events| - 1].kind.Terminal?
    && t.result == Some(Settled(request, |t.events|, ending)) && t.raised.None?
    && ResultOk(t.result.value)
    && ArtifactsBeforeTerminal(t.events, t.result.value.artifacts)
    && (t.result.value.artifacts != [] ==> t.result.value.outcome.Completed?)
  }

  /** What a stream that raises is like. */
  predicate UnsettledOk(t: Transcript) {
    && WellOrdered(t.events) && !t.events[|t.events| - 1].kind.Terminal?
    && t.result.None? && t.raised.Some?
  }

  function SettledEvents(progress: seq<Event>, artifacts: seq<Artifact>): seq<Event> {
    var before := [STARTED] + progress + ArtifactEvents(2 + |progress|, artifacts);
    before + [TerminalEvent(|before| + 1)]
  }

  /** The event at each place of a settled stream. */
  lemma SettledEventAt(progress: seq<Event>, artifacts: seq<Artifact>, i: nat)
    requires i < |progress| + |artifacts| + 2
    ensures |SettledEvents(progress, artifacts)| == |progress| + |artifacts| + 2
    ensures
      SettledEvents(progress, artifacts)[i] ==
      if i == 0 then STARTED
      else if i <= |progress| then progress[i - 1]
      else if i <= |progress| + |artifacts| then ArtifactEvent(i + 1, artifacts[i - 1 - |progress|])
      else TerminalEvent(i + 1)
  {
    var before := [STARTED] + progress + ArtifactEvents(2 + |progress|, artifacts);
    if i < |before| {
      assert SettledEvents(progress, artifacts)[i] == before[i];
    }
  }

  lemma SettledOrder(progress: seq<Event>, artifacts: seq<Artifact>)
    requires Numbered(progress, 2) && OnlyProgress(progress)
    ensures
      var events := SettledEvents(progress, artifacts);
      && |events| == |progress| + |artifacts| + 2
      && WellOrdered(events) && events[|events| - 1].kind.Terminal?
      && ArtifactsBeforeTerminal(events, artifacts)
  {
    hide SettledEvents;
    var events := SettledEvents(progress, artifacts);
    SettledEventAt(progress, artifacts, 0);
    forall i: nat | i < |events|
      ensures events[i].sequence == i + 1
      ensures events[i].kind.Started? <==> i == 0
      ensures events[i].kind.Terminal? <==> i == |events| - 1
      ensures events[i].kind.ArtifactKind? <==> |progress| < i < |events| - 1
      ensures |progress| < i < |events| - 1 ==> events[i].artifact == Some(artifacts[i - 1 - |progress|])
    {
      SettledEventAt(progress, artifacts, i);
    }
  }

  lemma SettledStream(request: Request, progress: seq<Event>, ending: Ending, late: Option<string>)
    requires Numbered(progress, 2) && OnlyProgress(progress) && EndingFits(request, 1 + |progress|, ending)
    ensures
      var before := [STARTED] + progress + ArtifactEvents(2 + |progress|, ending.artifacts);
      var result := Settled(request, |before| + 1, ending);
      && ResultOk(result)
      && SettledOk(
           request, Transcript(before + [TerminalEvent(|before| + 1)], Some(result), None, late), ending)
  {
    hide WellOrdered, ArtifactsBeforeTerminal, Numbered, OnlyProgress;
    SettledOrder(progress, ending.artifacts);
  }

  lemma UnsettledStream(progress: seq<Event>, fault: SessionFault, late: Option<string>)
    requires Numbered(progress, 2) && OnlyProgress(progress)
    ensures UnsettledOk(Transcript([STARTED] + progress, None, Some(fault), late))
  {
  }

  lemma UnlaunchedStream(fault: SessionFault, late: Option<string>)
    ensures UnsettledOk(Transcript([STARTED], None, Some(fault), late))
  {
  }

  /**
   Every stream numbers its events 1, 2, 3, … and starts with `STARTED`. It settles exactly when
   the loop comes to an end without raising, because the checks of the result then never reject
   it; a settled stream ends with its only `TERMINAL`, is no longer than the event limit, reports
   its own length, and announces the artifacts of the result just before the end.
   */
  lemma StreamShape(env: Setting, request: Request, reason: Option<string>, script: Script)
    requires LimitsOk(request.limits)
    ensures
      var t := Play(env, request, reason, script);
      var loop := Loop(env, request, script.turns, AcceptAll(env, reason, script.atStart), 1);
      if script.launched && loop.ending.Ok? then SettledOk(request, t, loop.ending.value) else UnsettledOk(t)
  {
    hide Loop, AcceptAll, LateReason, ResultOk, SettledOk, UnsettledOk, Numbered, OnlyProgress, EndingFits;
    var first := AcceptAll(env, reason, script.atStart);
    LoopShape(env, request, script.turns, first, 1);
    var loop := Loop(env, request, script.turns, first, 1);
    if !script.launched {
      UnlaunchedStream(IoFault, first);
    } else {
      match loop.ending
      case Ok(ending) =>
        SettledStream(request, loop.events, ending, LateReason(env, loop.reason, script.atEnd, |ending.artifacts|));
      case Err(fault) => UnsettledStream(loop.events, fault, LateReason(env, loop.reason, script.atEnd, 0));
    }
  }

  // ---------------------------------------------------------------- cancellation

  /** The ending of a cancelled run names the accepted reason; building it never raises. */
  lemma CancelledEnding(reason: string)
    requires ReasonOk(Some(reason))
    ensures
      Fails(CancelledByCaller(reason))
      == Ok(Ending(Cancelled, Some(Failure(CancelledCategory, "cancelled_by_caller", reason)), []))
  {
    hide HasLowControl, IsSpace;
    assert Strip(reason) == reason;
  }

  /**
   A cancellation that is recorded before a read step begins ends the run then and there:
   nothing more is emitted, and the run settles as cancelled for that reason.
   */
  lemma RecordedCancelEndsLoop(env: Setting, request: Request, turns: seq<Turn>, reason: string, sequence: nat)
    requires ReasonOk(Some(reason))
    ensures
      Loop(env, request, turns, Some(reason), sequence)
      == LoopEnd(
           [], Ok(Ending(Cancelled, Some(Failure(CancelledCategory, "cancelled_by_caller", reason)), [])), Some(reason))
  {
    hide Fails, React;
    CancelledEnding(reason);
  }

  /**
   If a cancellation has been accepted by the end of the loop, the run is cancelled for that
   reason, unless the very last read step had already run out of time or failed. And a run is
   cancelled only for the accepted reason.
   */
  lemma {:induction false} AcceptedCancelDecides(
    env: Setting, request: Request, turns: seq<Turn>, reason: Option<string>, sequence: nat)
    requires ReasonOk(reason)
    ensures
      var loop := Loop(env, request, turns, reason, sequence);
      && ReasonOk(loop.reason)
      && (loop.reason.Some? ==>
            || loop.ending == Fails(CancelledByCaller(loop.reason.value))
            || loop.ending == Fails(WallClockExceeded)
            || loop.ending == Fails(ProcessIoError))
      && (loop.ending.Ok? && loop.ending.value.outcome.Cancelled? ==>
            loop.reason.Some? && loop.ending == Fails(CancelledByCaller(loop.reason.value)))
    decreases |turns|
  {
    hide FinalizeResult, Fails, AcceptReasons, CodeOf, MessageOf, React, ReasonOk;
    if turns != [] {
      var turn := turns[0];
      var heard := Heard(env, turn, reason);
      FirstReasonStays(reason, turn.during);
      match ReadStep(turn, reason, heard)
      case Stop(ending) =>
      case Got(payload) =>
        NeverCancels(env, request, payload, sequence);
        FirstReasonStays(heard, turn.after);
        match React(env, request, payload, sequence)
        case Finish(ending) =>
        case Skip => AcceptedCancelDecides(env, request, turns[1..], heard, sequence);
        case Emit(event) =>
          AcceptedCancelDecides(env, request, turns[1..], AcceptAll(env, heard, turn.after), sequence + 1);
    }
  }

  /** A line never makes a run a cancelled one. */
  lemma NeverCancels(env: Setting, request: Request, payload: Option<map<string, Json>>, sequence: nat)
    ensures
      var reaction := React(env, request, payload, sequence);
      reaction.Finish? && reaction.ending.Ok? ==> !reaction.ending.value.outcome.Cancelled?
  {
    hide FirstViolation, BuildArtifacts, ChangedFiles, Fails, Truncated, CodeOf, MessageOf, MakeEvent, Translate;
  }

  /** Once the loop is over, cancellations change nothing in the stream or in the result. */
  lemma LateCancelIsIgnored(
    env: Setting, request: Request, reason: Option<string>, script: Script, other: nat -> seq<string>)
    ensures
      var t := Play(env, request, reason, script);
      var u := Play(env, request, reason, script.(atEnd := other));
      t.events == u.events && t.result == u.result && t.raised == u.raised
  {
    hide Loop, AcceptAll, LateReason;
  }

  // ---------------------------------------------------------------- what a completed run may report

  /** What one changed file contributes to the artifacts. */
  predicate Contributes(env: Setting, path: string, artifact: Artifact) {
    && env.file(path) == Present(artifact.digest, artifact.size)
    && artifact.path == Strip(path)
    && artifact.mediaType == Strip(env.mediaType(path))
    && artifact.size > 0
  }

  predicate HasSource(env: Setting, files: seq<string>, artifact: Artifact) {
    exists f | f in files :: Contributes(env, f, artifact)
  }

  predicate IsReported(env: Setting, artifacts: seq<Artifact>, path: string) {
    exists a | a in artifacts :: Contributes(env, path, a)
  }

  lemma SourcesGrow(env: Setting, files: seq<string>, path: string, artifacts: seq<Artifact>, artifact: Artifact)
    ensures forall a :: HasSource(env, files, a) ==> HasSource(env, files + [path], a)
    ensures forall f :: IsReported(env, artifacts, f) ==> IsReported(env, artifacts + [artifact], f)
    ensures Contributes(env, path, artifact) ==> HasSource(env, files + [path], artifact)
    ensures Contributes(env, path, artifact) ==> IsReported(env, artifacts + [artifact], path)
  {
    hide Contributes;
    assert path in files + [path] && artifact in artifacts + [artifact];
    forall a | HasSource(env, files, a)
      ensures HasSource(env, files + [path], a)
    {
      var f :| f in files && Contributes(env, f, a);
      assert f in files + [path];
    }
    forall f | IsReported(env, artifacts, f)
      ensures IsReported(env, artifacts + [artifact], f)
    {
      var a :| a in artifacts && Contributes(env, f, a);
      assert a in artifacts + [artifact];
    }
  }

  /** Every artifact comes from a changed file, and every changed file that is not empty is reported. */
  lemma {:induction false} BuiltFromFiles(env: Setting, files: seq<string>)
    requires BuildArtifacts(env, files).Ok? && BuildArtifacts(env, files).value.Built?
    ensures forall f | f in files :: env.file(f).Present?
    ensures forall a | a in BuildArtifacts(env, files).value.artifacts :: HasSource(env, files, a)
    ensures forall f | f in files && env.file(f).size > 0 ::
              IsReported(env, BuildArtifacts(env, files).value.artifacts, f)
  {
    hide MakeArtifact, HasSource, IsReported;
    if files != [] {
      var front := files[..|files| - 1];
      var path := files[|files| - 1];
      assert files == front + [path];
      BuiltFromFiles(env, front);
      var before := BuildArtifacts(env, front).value.artifacts;
      var size := env.file(path).size;
      if size > 0 {
        MadeArtifact(env, path, env.file(path).digest, size);
        SourcesGrow(env, front, path, before, MakeArtifact(env, path, env.file(path).digest, size).value);
      } else {
        SourcesGrow(env, front, path, before, Artifact(path, "", "", 0));
      }
    }
  }

  lemma MadeArtifact(env: Setting, path: string, digest: string, size: nat)
    requires MakeArtifact(env, path, digest, size).Ok?
    ensures
      var a := MakeArtifact(env, path, digest, size).value;
      && a.path == Strip(path) && a.mediaType == Strip(env.mediaType(path))
      && a.digest == digest && a.size == size && size > 0
  {
  }

  /**
   A completed run: all reported changes are governed and present, the artifacts are those of
   the changed files that are not empty, and they are within the limits.
   */
  lemma CompletedIsGoverned(env: Setting, request: Request, files: seq<string>, sequence: nat)
    requires FinalizeChanges(env, request, files, sequence).Ok?
    ensures
      var ending := FinalizeChanges(env, request, files, sequence).value;
      ending.outcome.Completed? <==>
        && (forall f | f in files :: Governed(env, request.writablePaths, f))
        && BuildArtifacts(env, files) == Ok(Built(ending.artifacts))
        && ending.failure.None?
        && sequence + |ending.artifacts| + 1 <= request.limits.maxEvents
        && |ending.artifacts| <= request.limits.maxArtifacts
        && TotalBytes(ending.artifacts) <= request.limits.maxArtifactBytes
  {
    hide Fails, BuildArtifacts, Governed, CodeOf, MessageOf;
    ViolationIsUngoverned(env, request.writablePaths, files);
  }

  /**
   With a faithful sort: each path in the `changed_files` of a completed run is governed, is
   there, and is reported unless it is empty; and nothing else is reported.
   */
  lemma CompletedReportsEveryChange(
    env: Setting, request: Request, payload: map<string, Json>, items: seq<Json>, sequence: nat)
    requires SettingOk(env) && Get(payload, "changed_files") == Some(JArr(items))
    requires var r := FinalizeResult(env, request, payload, sequence); r.Ok? && r.value.outcome.Completed?
    ensures
      var artifacts := FinalizeResult(env, request, payload, sequence).value.artifacts;
      && (forall path | JStr(path) in items ::
            && Governed(env, request.writablePaths, path) && env.file(path).Present?
            && (env.file(path).size > 0 ==> IsReported(env, artifacts, path)))
      && (forall a | a in artifacts :: exists path | JStr(path) in items :: Contributes(env, path, a))
  {
    hide Governed, Contributes, BuildArtifacts, FirstViolation, Fails, Truncated;
    var files := ChangedFiles(env, payload);
    assert Sorted(files, StringsIn(items));
    CompletedIsGoverned(env, request, files, sequence);
    BuiltFromFiles(env, files);
    forall path | JStr(path) in items
      ensures path in files
    {
      assert JStr(path).text in StringsIn(items);
    }
    var artifacts := FinalizeResult(env, request, payload, sequence).value.artifacts;
    forall a | a in artifacts
      ensures exists path | JStr(path) in items :: Contributes(env, path, a)
    {
      assert HasSource(env, files, a);
      var f :| f in files && Contributes(env, f, a);
      var j :| j in items && j.JStr? && j.text == f;
      assert JStr(f) in items;
    }
  }

  lemma {:induction false} ViolationIsUngoverned(env: Setting, writablePaths: seq<string>, files: seq<string>)
    ensures FirstViolation(env, writablePaths, files).None? <==> forall f | f in files :: Governed(env, writablePaths, f)
  {
    hide Governed;
    if files != [] {
      ViolationIsUngoverned(env, writablePaths, files[1..]);
    }
  }

  /** To be within the writable paths is to lie at or below one of them, component by component. */
  lemma WithinIsBelow(path: string, writablePaths: seq<string>)
    requires RelativeNormal(path) && forall w | w in writablePaths :: RelativeNormal(w) && w != "."
    ensures WithinWritablePaths(path, writablePaths) <==>
            exists w | w in writablePaths :: AtOrBelow(PartsOf(w), PartsOf(path))
  {
    hide RelativeNormal, IsParent, AtOrBelow, PartsOf;
    forall w | w in writablePaths
      ensures path == w || IsParent(w, path) <==> AtOrBelow(PartsOf(w), PartsOf(path))
    {
      ParentIsPrefix(w, path);
    }
  }

  // ---------------------------------------------------------------- the session

  class ClaudeCodeExecutionSession {
    const env: Setting
    const request: Request
    var cancelReason: Option<string>
    var consumed: bool
    var running: bool
    var events: seq<Event>
    var settled: Option<ExecutionResult>

    constructor (env: Setting, request: Request)
      ensures this.env == env && this.request == request && Fresh()
      ensures cancelReason == None
    {
      this.env := env;
      this.request := request;
      cancelReason, consumed, running, events, settled := None, false, false, [], None;
    }

    /** Nobody has consumed the stream yet. */
    predicate Fresh()
      reads this
    {
      !consumed && !running && events == [] && settled.None?
    }

    /** A request to cancel: refused, too late, second, or the one that counts. */
    method Cancel(reason: string) returns (r: Result<(), SessionFault>)
      modifies this`cancelReason, this`running
      ensures r == if !env.cancellable then Err(UsageFault)
                   else if !PlainLine(Strip(reason), 512) then Err(ValueFault) else Ok(())
      ensures cancelReason ==
              if !env.cancellable || old(settled).Some? then old(cancelReason)
              else AcceptReason(old(cancelReason), reason)
      ensures running == (old(running) && (r.Err? || settled.Some?))
    {
      if !env.cancellable {
        return Err(UsageFault);
      }
      var normalized := RequiredText(reason, 512);
      if normalized.Err? {
        return Err(normalized.error);
      }
      if settled.Some? {
        return Ok(());
      }
      if cancelReason.None? {
        cancelReason := Some(normalized.value);
      }
      running := false;
      return Ok(());
    }

    /** The cancellations that arrive while the stream waits or its consumer has the turn. */
    method Suspend(reasons: seq<string>)
      requires settled.None?
      modifies this`cancelReason, this`running
      ensures cancelReason == AcceptAll(env, old(cancelReason), reasons)
      ensures running ==> old(running)
    {
      var i := 0;
      while i < |reasons|
        invariant 0 <= i <= |reasons| && (running ==> old(running))
        invariant AcceptAll(env, old(cancelReason), reasons) == AcceptAll(env, cancelReason, reasons[i..])
      {
        assert reasons[i..][1..] == reasons[i + 1..];
        var accepted := Cancel(reasons[i]);
        i := i + 1;
      }
    }

    method ReadNextLine(turn: Turn) returns (step: Step)
      requires settled.None?
      modifies this`cancelReason, this`running
      ensures cancelReason == Heard(env, turn, old(cancelReason))
      ensures step == ReadStep(turn, old(cancelReason), cancelReason)
    {
      if cancelReason.Some? {
        return Stop(Fails(CancelledByCaller(cancelReason.value)));
      }
      if turn.expired {
        return Stop(Fails(WallClockExceeded));
      }
      Suspend(turn.during);
      if turn.read.ReadTimeout? {
        return Stop(Fails(WallClockExceeded));
      }
      if turn.read.ReadError? {
        return Stop(Fails(ProcessIoError));
      }
      if cancelReason.Some? {
        return Stop(Fails(CancelledByCaller(cancelReason.value)));
      }
      if turn.read.EndOfStream? {
        return Stop(Fails(ExitedWithoutResult));
      }
      return Got(turn.read.payload);
    }

    /** What a result line makes of the run. */
    method SettleResult(payload: map<string, Json>, sequence: nat) returns (ending: Result<Ending, SessionFault>)
      ensures ending == FinalizeResult(env, request, payload, sequence)
    {
      hide Fails, BuildArtifacts, FirstViolation, Truncated, ChangedFiles, Governed, ViolationOf;
      if Get(payload, "is_error") != Some(JBool(false)) {
        return FinalizeResult(env, request, payload, sequence);
      }
      var files := ChangedFiles(env, payload);
      var violation := BoundaryViolation(env, request.writablePaths, files);
      if violation.Some? {
        return Fails(ViolationOf(env, request.writablePaths, violation.value));
      }
      var built := CollectArtifacts(env, files);
      if built.Err? {
        return Err(built.error);
      }
      match built.value
      case UnreadableFile => return Fails(FileUnreadable);
      case MissingFile(path) => return Fails(FileNotFound(path));
      case Built(artifacts) =>
        if sequence + |artifacts| + 1 > request.limits.maxEvents {
          return Fails(EventLimit);
        } else if |artifacts| > request.limits.maxArtifacts {
          return Fails(ArtifactCountLimit);
        } else if TotalBytes(artifacts) > request.limits.maxArtifactBytes {
          return Fails(ArtifactByteLimit);
        }
        return Ok(Ending(Completed, None, artifacts));
    }

    /** What becomes of one line, before anything is emitted. */
    method Consider(payload: Option<map<string, Json>>, sequence: nat) returns (r: Reaction)
      ensures r == React(env, request, payload, sequence)
    {
      hide FinalizeResult, MakeEvent, Fails;
      if payload.None? {
        return Skip;
      }
      if TypeOf(payload.value) == "result" {
        var ending := SettleResult(payload.value, sequence);
        return Finish(ending);
      }
      var pending := Translate(payload.value);
      if pending.None? {
        return Skip;
      }
      if sequence + 2 > request.limits.maxEvents {
        return Finish(Fails(EventLimit));
      }
      var event := MakeEvent(sequence + 1, pending.value);
      return if event.Err? then Finish(Err(event.error)) else Emit(event.value);
    }

    /** The loop of the stream: one line after the other, until something ends it. */
    method ReadLines(turns: seq<Turn>) returns (ending: Result<Ending, SessionFault>)
      requires settled.None? && |events| == 1
      modifies this`cancelReason, this`running, this`events
      ensures var loop := Loop(env, request, turns, old(cancelReason), 1);
              ending == loop.ending && events == old(events) + loop.events && cancelReason == loop.reason
    {
      hide React, ReadStep, Heard, AcceptAll, Expired;
      var sequence := 1;
      var i := 0;
      while i < |turns|
        invariant 0 <= i <= |turns| && sequence == |events|
        invariant old(events) <= events
        invariant var loop := Loop(env, request, turns, old(cancelReason), 1);
                  var rest := Loop(env, request, turns[i..], cancelReason, sequence);
                  && old(events) + loop.events == events + rest.events
                  && loop.ending == rest.ending && loop.reason == rest.reason
      {
        assert turns[i..][0] == turns[i] && turns[i..][1..] == turns[i + 1..];
        var step := ReadNextLine(turns[i]);
        if step.Stop? {
          return step.ending;
        }
        var reaction := Consider(step.payload, sequence);
        match reaction {
          case Finish(finished) => return finished;
          case Skip =>
          case Emit(event) =>
            events := events + [event];
            sequence := sequence + 1;
            Suspend(turns[i].after);
        }
        i := i + 1;
      }
      return Expired(cancelReason);
    }

    /** The artifact events of a completed run, with cancellations arriving in between. */
    method StreamArtifacts(artifacts: seq<Artifact>, atEnd: nat -> seq<string>)
      requires settled.None?
      modifies this`cancelReason, this`running, this`events
      ensures events == old(events) + ArtifactEvents(|old(events)| + 1, artifacts)
      ensures cancelReason == LateReason(env, old(cancelReason), atEnd, |artifacts|)
    {
      hide AcceptAll;
      Suspend(atEnd(0));
      var i := 0;
      while i < |artifacts|
        invariant 0 <= i <= |artifacts|
        invariant events == old(events) + ArtifactEvents(|old(events)| + 1, artifacts[..i])
        invariant cancelReason == LateReason(env, old(cancelReason), atEnd, i)
      {
        events := events + [ArtifactEvent(|events| + 1, artifacts[i])];
        i := i + 1;
        Suspend(atEnd(i));
      }
      assert artifacts[..i] == artifacts;
    }

    /** Consumes the stream to its end: the transcript is that of `Play`. */
    method StreamEvents(script: Script) returns (raised: Option<SessionFault>)
      requires Fresh()
      modifies this
      ensures var t := Play(env, request, old(cancelReason), script);
              events == t.events && settled == t.result && raised == t.raised && cancelReason == t.reason
      ensures consumed && !running
    {
      hide Loop, AcceptAll, LateReason, ResultOk;
      consumed := true;
      events := [STARTED];
      Suspend(script.atStart);
      if !script.launched {
        return Some(IoFault);
      }
      running := true;
      var ending := ReadLines(script.turns);
      running := false;
      if ending.Err? {
        StopHere(env, cancelReason, script.atEnd);
        Suspend(script.atEnd(0));
        return Some(ending.error);
      }
      StreamArtifacts(ending.value.artifacts, script.atEnd);
      running := false;
      var result := MakeResult(Settled(request, |events| + 1, ending.value));
      if result.Err? {
        return Some(result.error);
      }
      settled := Some(result.value);
      events := events + [TerminalEvent(|events| + 1)];
      return None;
    }

    /** The result, for which the stream is consumed unless that has been done. */
    method AwaitResult(script: Script) returns (r: Result<ExecutionResult, SessionFault>)
      requires consumed || Fresh()
      modifies this
      ensures old(settled).Some? ==> r == Ok(old(settled).value) && settled == old(settled) && events == old(events)
      ensures old(settled).None? && old(consumed) ==> r == Err(UsageFault) && settled.None?
      ensures old(Fresh()) ==>
                var t := Play(env, request, old(cancelReason), script);
                && settled == t.result
                && r == match t.result
                        case Some(result) => Ok(result)
                        case None => Err(t.raised.value)
    {
      hide Play;
      if settled.None? {
        if consumed {
          return Err(UsageFault);
        }
        var raised := StreamEvents(script);
        SettledOrRaised(env, request, old(cancelReason), script);
        if raised.Some? {
          return Err(raised.value);
        }
      }
      return Ok(settled.value);
    }
  }

  lemma StopHere(env: Setting, reason: Option<string>, atEnd: nat -> seq<string>)
    ensures LateReason(env, reason, atEnd, 0) == AcceptAll(env, reason, atEnd(0))
  {
  }

  lemma SettledOrRaised(env: Setting, request: Request, reason: Option<string>, script: Script)
    ensures
      var t := Play(env, request, reason, script);
      t.result.None? <==> t.raised.Some?
  {
    hide Loop, AcceptAll, LateReason, ResultOk;
  }

  // ---------------------------------------------------------------- the executor

  class ClaudeCodeExecutor {
    const env: Setting
    const toolNames: set<string>
    var sessions: map<string, ClaudeCodeExecutionSession>

    /** Every session is filed under the id of its own request. */
    predicate Valid()
      reads this, set id | id in sessions :: sessions[id]
    {
      forall id | id in sessions :: sessions[id].request.executionId == id
    }

    constructor (env: Setting, toolNames: set<string>)
      ensures Valid() && sessions == map[] && this.env == env && this.toolNames == toolNames
    {
      this.env := env;
      this.toolNames := toolNames;
      sessions := map[];
    }

    /**
     Starting is idempotent: the same request gets the same session, another request under the
     same id is refused, and nothing is started for tools that the executor does not support.
     */
    method Start(request: Request) returns (r: Result<ClaudeCodeExecutionSession, SessionFault>)
      requires Valid()
      modifies this`sessions
      ensures Valid()
      ensures r.Ok? <==>
              && request.tools <= toolNames
              && (request.executionId in old(sessions) ==> old(sessions)[request.executionId].request == request)
      ensures r.Err? ==> sessions == old(sessions)
      ensures r.Ok? ==>
                && sessions == old(sessions)[request.executionId := r.value]
                && r.value.request == request
                && (if request.executionId in old(sessions) then r.value == old(sessions)[request.executionId]
                    else fresh(r.value) && r.value.Fresh())
    {
      if !(request.tools <= toolNames) {
        return Err(ValueFault);
      }
      if request.executionId in sessions {
        var session := sessions[request.executionId];
        if session.request != request {
          return Err(ValueFault);
        }
        return Ok(session);
      }
      var session := new ClaudeCodeExecutionSession(env, request);
      sessions := sessions[request.executionId := session];
      return Ok(session);
    }
  }
}
