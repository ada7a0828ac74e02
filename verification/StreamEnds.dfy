/**
 How a stream settles: which turn decides, and the outcome, the category and the code that the
 caller then reads. What is said here names the values themselves.
 */
module StreamEnds {
  import opened Wrappers
  import opened Text
  import opened JsonValues
  import opened PosixPaths
  import opened ExecutionResults
  import opened ClaudeSession
  import opened UnfitLines

  // ---------------------------------------------------------------- what a caller reads

  /** The stream settled without success, for this reason. */
  predicate Settles(t: Transcript, outcome: Outcome, category: Category, code: string) {
    && t.raised.None? && t.result.Some?
    && t.result.value.outcome == outcome && t.result.value.artifacts == []
    && t.result.value.failure.Some?
    && t.result.value.failure.value.category == category && t.result.value.failure.value.code == code
  }

  /** None of these texts is accepted as a cancellation. */
  predicate NoneAccepted(env: Setting, texts: seq<string>) {
    !env.cancellable || forall i | 0 <= i < |texts| :: !PlainLine(Strip(texts[i]), 512)
  }

  /** The first text that is accepted as a cancellation. */
  predicate FirstAccepted(env: Setting, texts: seq<string>, reason: string) {
    && env.cancellable
    && exists i | 0 <= i < |texts| :: AcceptedAt(texts, i, reason)
  }

  predicate AcceptedAt(texts: seq<string>, i: int, reason: string)
    requires 0 <= i < |texts|
  {
    && reason == Strip(texts[i]) && PlainLine(reason, 512)
    && forall j | 0 <= j < i :: !PlainLine(Strip(texts[j]), 512)
  }

  /** A line that is read in time, uncancelled, fits, and is not the result. */
  predicate GoesOn(env: Setting, request: Request, turn: Turn) {
    && !turn.expired && turn.read.Line?
    && NoneAccepted(env, turn.during) && NoneAccepted(env, turn.after)
    && (turn.read.payload.Some? ==>
          !IsResult(turn.read.payload.value) && LineFits(env, request, turn.read.payload.value))
  }

  predicate AllGoOn(env: Setting, request: Request, turns: seq<Turn>, n: nat) {
    n <= |turns| && forall i | 0 <= i < n :: GoesOn(env, request, turns[i])
  }

  lemma UnacceptedIsIgnored(env: Setting, texts: seq<string>)
    requires NoneAccepted(env, texts)
    ensures AcceptAll(env, None, texts) == None
  {
    hide PlainLine, Strip, AcceptReasons;
    FirstReasonStays(None, texts);
  }

  lemma AcceptedIsFirst(env: Setting, texts: seq<string>)
    ensures AcceptAll(env, None, texts).None? <==> NoneAccepted(env, texts)
    ensures AcceptAll(env, None, texts).Some? ==> FirstAccepted(env, texts, AcceptAll(env, None, texts).value)
    ensures ReasonOk(AcceptAll(env, None, texts))
  {
    hide Strip, AcceptReasons, HasLowControl, IsSpace;
    FirstReasonStays(None, texts);
    if env.cancellable {
      match AcceptReasons(None, texts)
      case None =>
      case Some(reason) =>
        var i :| 0 <= i < |texts| && reason == Strip(texts[i]) && forall j | 0 <= j < i :: !PlainLine(Strip(texts[j]), 512);
        assert AcceptedAt(texts, i, reason);
    }
  }

  // ---------------------------------------------------------------- which turn decides

  /** A line that goes on is answered by at most one event and leaves the rest to the turns after it. */
  lemma LoopGoesOn(env: Setting, request: Request, turns: seq<Turn>, sequence: nat) returns (events: seq<Event>)
    requires turns != [] && GoesOn(env, request, turns[0]) && sequence + 2 <= request.limits.maxEvents
    ensures |events| <= 1
    ensures
      var loop := Loop(env, request, turns, None, sequence);
      var rest := Loop(env, request, turns[1..], None, sequence + |events|);
      loop.events == events + rest.events && loop.ending == rest.ending && loop.reason == rest.reason
  {
    hide React, LineFits, NoneAccepted, Fails;
    var turn := turns[0];
    UnacceptedIsIgnored(env, turn.during);
    UnacceptedIsIgnored(env, turn.after);
    NoLineIsSkipped(env, request, sequence);
    if turn.read.payload.Some? {
      ProgressGoesOn(env, request, turn.read.payload.value, sequence);
    }
    events := match React(env, request, turn.read.payload, sequence) case Emit(event) => [event] case _ => [];
  }

  /** Lines that go on leave the decision to the turns after them, and are answered by at most one event each. */
  lemma {:induction false} LoopReaches(env: Setting, request: Request, turns: seq<Turn>, sequence: nat, n: nat)
    returns (events: seq<Event>)
    requires AllGoOn(env, request, turns, n) && sequence + n + 1 <= request.limits.maxEvents
    ensures |events| <= n
    ensures
      var loop := Loop(env, request, turns, None, sequence);
      var rest := Loop(env, request, turns[n..], None, sequence + |events|);
      loop.events == events + rest.events && loop.ending == rest.ending && loop.reason == rest.reason
    decreases n
  {
    hide Loop, GoesOn;
    events := [];
    if n > 0 {
      var later := turns[1..];
      assert GoesOn(env, request, turns[0]) && forall i | 0 <= i < |later| :: later[i] == turns[i + 1];
      assert later[n - 1..] == turns[n..];
      var first := LoopGoesOn(env, request, turns, sequence);
      var rest := LoopReaches(env, request, later, sequence + |first|, n - 1);
      events := first + rest;
    } else {
      assert turns[0..] == turns;
    }
  }

  lemma ProgressGoesOn(env: Setting, request: Request, payload: map<string, Json>, sequence: nat)
    requires !IsResult(payload) && LineFits(env, request, payload) && sequence + 2 <= request.limits.maxEvents
    ensures !React(env, request, Some(payload), sequence).Finish?
  {
    hide FinalizeResult, Translate, ProgressFits, Fails, TypeOf;
    UnfitLineRaises(env, request, payload, sequence);
    ResultEnds(env, request, payload, sequence);
  }

  /** The loop's end is the stream's: its outcome and its failure are what the caller reads. */
  lemma EndIsRead(env: Setting, request: Request, script: Script, ending: Ending)
    requires LimitsOk(request.limits) && script.launched && NoneAccepted(env, script.atStart)
    requires Loop(env, request, script.turns, None, 1).ending == Ok(ending)
    ensures
      var t := Play(env, request, None, script);
      && t.raised.None? && t.result.Some? && t.result.value.outcome == ending.outcome
      && t.result.value.failure == ending.failure && t.result.value.artifacts == ending.artifacts
  {
    hide Loop, Play, AcceptAll, NoneAccepted;
    UnacceptedIsIgnored(env, script.atStart);
    StreamShape(env, request, None, script);
  }

  lemma DecidedAt(env: Setting, request: Request, script: Script, i: nat, ending: Ending)
    requires LimitsOk(request.limits) && script.launched && NoneAccepted(env, script.atStart)
    requires AllGoOn(env, request, script.turns, i) && i + 2 <= request.limits.maxEvents
    requires forall sequence: nat :: Loop(env, request, script.turns[i..], None, sequence).ending == Ok(ending)
    ensures
      var t := Play(env, request, None, script);
      && t.raised.None? && t.result.Some? && t.result.value.outcome == ending.outcome
      && t.result.value.failure == ending.failure && t.result.value.artifacts == ending.artifacts
  {
    hide Loop, Play, NoneAccepted, GoesOn;
    var events := LoopReaches(env, request, script.turns, 1, i);
    EndIsRead(env, request, script, ending);
  }

  // ---------------------------------------------------------------- reads that fail, and cancellations

  /** An unsuccessful end with these values. */
  predicate EndsAs(r: Result<Ending, SessionFault>, outcome: Outcome, category: Category, code: string) {
    && r.Ok? && r.value.outcome == outcome && r.value.artifacts == []
    && r.value.failure.Some? && r.value.failure.value.category == category && r.value.failure.value.code == code
  }

  /** The ends of a loop that no line ends. */
  lemma FixedEnds()
    ensures EndsAs(Fails(WallClockExceeded), TimedOut, Timeout, "wall_clock_exceeded")
    ensures EndsAs(Fails(ProcessIoError), Failed, Provider, "process_io_error")
    ensures EndsAs(Fails(ExitedWithoutResult), Failed, Provider, "process_exited_without_result")
  {
    hide Fails, MessageOf;
    FixedFailure(WallClockExceeded);
    FixedFailure(ProcessIoError);
    FixedFailure(ExitedWithoutResult);
  }

  /**
   A launched stream whose turns before `i` go on is decided by turn `i`: the deadline or a read
   that takes too long makes it time out, a read that fails or a process that exits makes it fail,
   each with its own code, and a cancellation accepted during the read cancels it for that reason.
   When the turns run out, the deadline has passed.
   */
  lemma ReadsDecide(env: Setting, request: Request, script: Script, i: nat)
    requires LimitsOk(request.limits) && script.launched && NoneAccepted(env, script.atStart)
    requires AllGoOn(env, request, script.turns, i) && i + 2 <= request.limits.maxEvents
    ensures
      var t := Play(env, request, None, script);
      if i == |script.turns| then Settles(t, TimedOut, Timeout, "wall_clock_exceeded")
      else
        var turn := script.turns[i];
        if turn.expired || turn.read.ReadTimeout? then Settles(t, TimedOut, Timeout, "wall_clock_exceeded")
        else if turn.read.ReadError? then Settles(t, Failed, Provider, "process_io_error")
        else if !NoneAccepted(env, turn.during) then
          && Settles(t, Cancelled, CancelledCategory, "cancelled_by_caller")
          && FirstAccepted(env, turn.during, t.result.value.failure.value.message)
        else turn.read.EndOfStream? ==> Settles(t, Failed, Provider, "process_exited_without_result")
  {
    hide Loop, Play, NoneAccepted, GoesOn, Fails, FirstAccepted;
    FixedEnds();
    if i == |script.turns| {
      OutOfTurns(env, request);
      assert script.turns[i..] == [];
      DecidedAt(env, request, script, i, Fails(WallClockExceeded).value);
    } else {
      var turn := script.turns[i];
      assert script.turns[i..][0] == turn;
      if turn.expired || turn.read.ReadTimeout? {
        FirstTurnStops(env, request, script.turns[i..]);
        DecidedAt(env, request, script, i, Fails(WallClockExceeded).value);
      } else if turn.read.ReadError? {
        FirstTurnStops(env, request, script.turns[i..]);
        DecidedAt(env, request, script, i, Fails(ProcessIoError).value);
      } else {
        AcceptedIsFirst(env, turn.during);
        FirstTurnStops(env, request, script.turns[i..]);
        if AcceptAll(env, None, turn.during).Some? {
          var reason := AcceptAll(env, None, turn.during).value;
          CancelledEnding(reason);
          DecidedAt(env, request, script, i, Fails(CancelledByCaller(reason)).value);
        } else if turn.read.EndOfStream? {
          DecidedAt(env, request, script, i, Fails(ExitedWithoutResult).value);
        }
      }
    }
  }

  lemma OutOfTurns(env: Setting, request: Request)
    ensures forall sequence: nat :: Loop(env, request, [], None, sequence).ending == Fails(WallClockExceeded)
  {
    hide Fails;
  }

  lemma FirstTurnStops(env: Setting, request: Request, turns: seq<Turn>)
    requires turns != []
    ensures
      var turn := turns[0];
      var heard := if turn.expired then None else AcceptAll(env, None, turn.during);
      forall sequence: nat ::
        var ending := Loop(env, request, turns, None, sequence).ending;
        && (turn.expired || turn.read.ReadTimeout? ==> ending == Fails(WallClockExceeded))
        && (!turn.expired && turn.read.ReadError? ==> ending == Fails(ProcessIoError))
        && (!turn.expired && !turn.read.ReadTimeout? && !turn.read.ReadError? && heard.Some? ==>
              ending == Fails(CancelledByCaller(heard.value)))
        && (!turn.expired && turn.read.EndOfStream? && heard.None? ==> ending == Fails(ExitedWithoutResult))
  {
    hide Fails, AcceptAll, React;
  }

  // ---------------------------------------------------------------- result lines

  /** If the turns before `i` go on and turn `i` brings a result line that fits, its judgement is the result. */
  lemma ResultDecides(env: Setting, request: Request, script: Script, i: nat) returns (emitted: nat)
    requires LimitsOk(request.limits) && script.launched && NoneAccepted(env, script.atStart)
    requires i < |script.turns| && AllGoOn(env, request, script.turns, i) && i + 2 <= request.limits.maxEvents
    requires
      var turn := script.turns[i];
      && !turn.expired && NoneAccepted(env, turn.during) && turn.read.Line? && turn.read.payload.Some?
      && IsResult(turn.read.payload.value) && ResultFits(env, request, turn.read.payload.value)
    ensures emitted <= i
    ensures
      var t := Play(env, request, None, script);
      var judged := FinalizeResult(env, request, script.turns[i].read.payload.value, 1 + emitted);
      && judged.Ok? && t.raised.None? && t.result.Some?
      && t.result.value.outcome == judged.value.outcome && t.result.value.failure == judged.value.failure
      && t.result.value.artifacts == judged.value.artifacts
      && t.result.value.eventsEmitted == emitted + |judged.value.artifacts| + 2
  {
    hide Loop, Play, GoesOn, FinalizeResult, ResultFits, LineFits, NoneAccepted;
    var turn := script.turns[i];
    var events := LoopReaches(env, request, script.turns, 1, i);
    emitted := |events|;
    var later := script.turns[i..];
    assert later[0] == turn;
    UnacceptedIsIgnored(env, turn.during);
    UnfitResultRaises(env, request, turn.read.payload.value, 1 + emitted);
    ResultEndsLoop(env, request, later, 1 + emitted);
    var judged := FinalizeResult(env, request, turn.read.payload.value, 1 + emitted).value;
    EndIsRead(env, request, script, judged);
    SettledLength(env, request, script, emitted, judged);
  }

  lemma ResultEndsLoop(env: Setting, request: Request, turns: seq<Turn>, sequence: nat)
    requires turns != [] && !turns[0].expired && turns[0].read.Line? && turns[0].read.payload.Some?
    requires IsResult(turns[0].read.payload.value) && AcceptAll(env, None, turns[0].during) == None
    ensures
      var loop := Loop(env, request, turns, None, sequence);
      loop.events == [] && loop.ending == FinalizeResult(env, request, turns[0].read.payload.value, sequence)
  {
    hide FinalizeResult, AcceptAll, Fails;
  }

  lemma SettledLength(env: Setting, request: Request, script: Script, emitted: nat, ending: Ending)
    requires LimitsOk(request.limits) && script.launched && NoneAccepted(env, script.atStart)
    requires
      var loop := Loop(env, request, script.turns, None, 1);
      |loop.events| == emitted && loop.ending == Ok(ending)
    ensures
      var t := Play(env, request, None, script);
      t.result.Some? ==> t.result.value.eventsEmitted == emitted + |ending.artifacts| + 2
  {
    hide Loop, AcceptAll, LateReason, NoneAccepted, ResultOk;
    UnacceptedIsIgnored(env, script.atStart);
  }

  /** The failure says which change it is about. */
  predicate SaysPath(r: Result<Ending, SessionFault>, head: string, path: string) {
    r.Ok? && r.value.failure.Some? && (TrimEnd(path) != "" ==> r.value.failure.value.message == head + TrimEnd(path))
  }

  /**
   A settled stream accounts for itself: the result is for the execution that was asked for, under
   its limits, and counts the events; these begin with the start, end with the terminal event, and
   right before it tell the artifacts of the result one by one.
   */
  lemma SettledIsAccounted(env: Setting, request: Request, reason: Option<string>, script: Script)
    requires Play(env, request, reason, script).result.Some?
    ensures
      var t := Play(env, request, reason, script);
      var n, result := |t.events|, t.result.value;
      && result.executionId == request.executionId && result.limits == request.limits
      && result.eventsEmitted == n >= |result.artifacts| + 2
      && t.events[0] == Event(1, Started, "Claude Code execution started", None)
      && t.events[n - 1] == Event(n, Terminal, "Execution reached a terminal outcome", None)
      && forall k | 0 <= k < |result.artifacts| ::
           var at, artifact := n - 1 - |result.artifacts| + k, result.artifacts[k];
           t.events[at] == Event(at + 1, ArtifactKind, "Produced artifact " + artifact.path, Some(artifact))
  {
    hide Loop, AcceptAll, LateReason, ResultOk, ArtifactEvent;
    var loop := Loop(env, request, script.turns, AcceptAll(env, reason, script.atStart), 1);
    var artifacts := loop.ending.value.artifacts;
    var t := Play(env, request, reason, script);
    assert t.events == SettledEvents(loop.events, artifacts);
    SettledEventAt(loop.events, artifacts, 0);
    SettledEventAt(loop.events, artifacts, |t.events| - 1);
    forall k: nat | k < |artifacts|
      ensures
        var at := |loop.events| + 1 + k;
        at < |t.events| && t.events[at] == ArtifactEvent(at + 1, artifacts[k])
    {
      SettledEventAt(loop.events, artifacts, |loop.events| + 1 + k);
    }
    ArtifactIsTold();
  }

  lemma ArtifactIsTold()
    ensures
      forall n: nat, artifact: Artifact ::
        ArtifactEvent(n, artifact) == Event(n, ArtifactKind, "Produced artifact " + artifact.path, Some(artifact))
  {
  }

  lemma MessageNamesPath(cause: Cause)
    requires NamingCause(cause) && Fails(cause).Ok?
    ensures SaysPath(Fails(cause), HeadOf(cause), cause.path)
  {
    hide CodeOf, CategoryOf, RequiredText, TrimEnd, Strip, HasLowControl, IsSpace;
    OutsideIsSolid();
    UngrantedIsSolid();
    EscapesIsSolid();
    NotFoundIsSolid();
    var head := HeadOf(cause);
    assert MessageOf(cause) == head + cause.path;
    assert (head + cause.path)[0] == head[0];
    StripSolid(head + cause.path);
    TrimEndAppend(head, cause.path);
  }

  /** A change outside the workspace blocks the run, with a code for each of the three ways, and is named. */
  lemma ViolationIsJudged(env: Setting, request: Request, files: seq<string>, sequence: nat, path: string)
    requires FirstViolation(env, request.writablePaths, files) == Some(path) && ChangesFit(env, request, files)
    ensures
      var r := FinalizeChanges(env, request, files, sequence);
      if !RelativeNormal(path) then
        EndsAs(r, Blocked, Policy, "changed_file_outside_governed_boundary") && SaysPath(r, OUTSIDE, path)
      else if request.writablePaths != [] && !WithinWritablePaths(path, request.writablePaths) then
        EndsAs(r, Blocked, Policy, "changed_file_outside_writable_paths") && SaysPath(r, UNGRANTED, path)
      else EndsAs(r, Blocked, Policy, "changed_file_escapes_worktree") && SaysPath(r, ESCAPES, path)
  {
    hide FirstViolation, RelativeNormal, WithinWritablePaths, CanName, Fails, SaysPath;
    var cause := ViolationOf(env, request.writablePaths, path);
    FailureNamesPath(cause);
    MessageNamesPath(cause);
  }

  /** Governed changes complete the run, unless a file cannot be used or a limit is exceeded. */
  lemma ChangesAreJudged(env: Setting, request: Request, files: seq<string>, sequence: nat)
    requires FirstViolation(env, request.writablePaths, files) == None && ChangesFit(env, request, files)
    ensures
      var r := FinalizeChanges(env, request, files, sequence);
      var built := BuildArtifacts(env, files);
      && built.Ok?
      && match built.value
         case UnreadableFile => EndsAs(r, Failed, Provider, "changed_file_unreadable")
         case MissingFile(path) => EndsAs(r, Failed, Provider, "changed_file_not_found") && SaysPath(r, NOT_FOUND, path)
         case Built(artifacts) =>
           if sequence + |artifacts| + 1 > request.limits.maxEvents
              || |artifacts| > request.limits.maxArtifacts || TotalBytes(artifacts) > request.limits.maxArtifactBytes
           then EndsAs(r, ResourceExhausted, Resource, "execution_limit_exhausted")
           else r == Ok(Ending(Completed, None, artifacts))
  {
    hide FirstViolation, Fails, CanName, SaysPath, BuildArtifacts, FilesFit, MessageOf;
    BuiltChangesFit(env, request, files);
    FixedFailure(FileUnreadable);
    FixedFailure(EventLimit);
    FixedFailure(ArtifactCountLimit);
    FixedFailure(ArtifactByteLimit);
    if BuildArtifacts(env, files).Ok? && BuildArtifacts(env, files).value.MissingFile? {
      var cause := FileNotFound(BuildArtifacts(env, files).value.path);
      FailureNamesPath(cause);
      MessageNamesPath(cause);
    }
  }

  /** A result line that reports an error, or does not say whether it does, fails the run. */
  lemma ErrorsAreJudged(env: Setting, request: Request, payload: map<string, Json>, sequence: nat)
    requires ResultFits(env, request, payload) && Get(payload, "is_error") != Some(JBool(false))
    ensures
      var r := FinalizeResult(env, request, payload, sequence);
      if Get(payload, "is_error") == Some(JBool(true))
      then EndsAs(r, Failed, Provider, "claude_code_reported_error")
      else EndsAs(r, Failed, Provider, "malformed_result_payload")
  {
    hide Fails, ResultFits, Truncated, MessageOf;
    UnfitResultRaises(env, request, payload, sequence);
  }

  // ---------------------------------------------------------------- what the other lines are answered by

  /** The line is answered by this event, if it fits and there is room. */
  predicate AnsweredBy(env: Setting, request: Request, payload: map<string, Json>, kind: Kind, message: string) {
    forall sequence: nat | sequence + 2 <= request.limits.maxEvents ::
      React(env, request, Some(payload), sequence) == Emit(Event(sequence + 1, kind, message, None))
  }

  lemma SolidMessage(head: string, text: string)
    requires Solid(head) && text != "" && Trimmed(text)
    ensures Strip(head + text) == head + text
  {
    var message := head + text;
    assert message[0] == head[0] && message[|message| - 1] == text[|text| - 1];
  }

  /** A tool that starts or finishes is told by its trimmed name. */
  lemma ToolLinesAreTold(env: Setting, request: Request, payload: map<string, Json>, name: string)
    requires Get(payload, "name") == Some(JStr(name)) && Strip(name) != "" && ToolFits(Strip(name))
    ensures TypeOf(payload) == "tool_use" ==>
              AnsweredBy(env, request, payload, ToolStarted, "Tool started: " + Strip(name))
    ensures TypeOf(payload) == "tool_result" ==>
              AnsweredBy(env, request, payload, ToolFinished, "Tool finished: " + Strip(name))
  {
    hide FinalizeResult, Fails, PlainLine, Strip, HasLowControl, TypeOf;
    var tool := Strip(name);
    StripIsTrimmed(name);
    ToolHeadsAreSolid();
    ToolMessage("Tool started: ", tool);
    ToolMessage("Tool finished: ", tool);
    SolidMessage("Tool started: ", tool);
    SolidMessage("Tool finished: ", tool);
    TypesDiffer();
    assert |"result"| == 6 && |"tool_use"| == 8 && |"tool_result"| == 11;
  }

  /** An assistant line is told by its text, and a system line by a fixed one; a line of another type is not told. */
  lemma OtherLinesAreTold(env: Setting, request: Request, payload: map<string, Json>)
    requires LineFits(env, request, payload)
    ensures TypeOf(payload) == "assistant" ==>
              AnsweredBy(
                env, request, payload, Progress,
                if AssistantText(payload) == "" then Strip(TURN) else Strip(Truncated(AssistantText(payload))))
    ensures TypeOf(payload) == "system" ==> AnsweredBy(env, request, payload, Progress, Strip(INITIALIZED))
    ensures
      TypeOf(payload) !in {"assistant", "system", "tool_use", "tool_result", "result"} ==>
        forall sequence: nat :: React(env, request, Some(payload), sequence) == Skip
  {
    hide FinalizeResult, Fails, PlainLine, Strip, HasLowControl, TypeOf, Truncated, AssistantText, ToolName;
    ProgressTextsAreSolid();
    SolidIsText(TURN);
    SolidIsText(INITIALIZED);
    TruncatedIsTrimmed(AssistantText(payload));
    TypesDiffer();
    assert |"result"| == 6 && "result"[0] == 'r' && "system"[0] == 's' && |"assistant"| == 9;
  }

  /** The text of an assistant line is made of its text blocks, in order. */
  lemma {:induction false} TextBlocksAppend(a: seq<Json>, b: seq<Json>)
    ensures TextBlocks(a + b) == TextBlocks(a) + TextBlocks(b)
    decreases |a|
  {
    if a == [] {
      assert a + b == b;
    } else {
      assert (a + b)[1..] == a[1..] + b;
      TextBlocksAppend(a[1..], b);
    }
  }

  function TextBlock(text: string): Json {
    JObj(map["type" := JStr("text"), "text" := JStr(text)])
  }

  /** A block is passed over unless it is a text block, which gives its text. */
  lemma OneBlock(block: Json, text: string)
    ensures TextBlocks([TextBlock(text)]) == [text]
    ensures !block.JObj? || Get(block.fields, "type") != Some(JStr("text")) ==> TextBlocks([block]) == []
  {
    assert |"type"| == 4 && |"text"| == 4 && "type"[1] == 'y' && "text"[1] == 'e';
    var one, other := [TextBlock(text)], [block];
    assert other[1..] == [] && one[1..] == [];
    var fields := one[0].fields;
    assert "type" in fields && fields["type"] == JStr("text") && fields["text"] == JStr(text);
  }

  /** For example: two text blocks around one of another type are joined by a space. */
  lemma AssistantTextIsJoined(a: string, b: string, block: Json, message: map<string, Json>, payload: map<string, Json>)
    requires !block.JObj? || Get(block.fields, "type") != Some(JStr("text"))
    requires Get(payload, "message") == Some(JObj(message))
    requires Get(message, "content") == Some(JArr([TextBlock(a), block, TextBlock(b)]))
    ensures AssistantText(payload) == a + " " + b
  {
    hide TextBlocks, TextBlock;
    OneBlock(block, a);
    OneBlock(block, b);
    assert [TextBlock(a), block, TextBlock(b)] == [TextBlock(a)] + ([block] + [TextBlock(b)]);
    TextBlocksAppend([block], [TextBlock(b)]);
    TextBlocksAppend([TextBlock(a)], [block] + [TextBlock(b)]);
    assert [a] + ([] + [b]) == [a, b];
    var texts := [a, b];
    assert texts[1..] == [b] && Join(texts[1..], " ") == b;
    assert TextBlocks([TextBlock(a), block, TextBlock(b)]) == texts;
  }
}
