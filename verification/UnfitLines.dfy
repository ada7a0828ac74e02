/**
 Where the stream of a coding run raises instead of settling. Every message and every artifact
 is checked when it is built, so a line can carry a text, a tool name or a changed path that the
 checks refuse. This module says exactly which lines those are.
 */
module UnfitLines {
  import opened Wrappers
  import opened Text
  import opened JsonValues
  import opened PosixPaths
  import opened ExecutionResults
  import opened ClaudeSession

  // ---------------------------------------------------------------- fixed texts are never refused

  /** A text that starts without space and has no control character. */
  predicate Solid(s: string) {
    s != "" && !IsSpace(s[0]) && !HasLowControl(s)
  }

  lemma Extended(a: string, b: string, c: string, d: string)
    requires Solid(a) && !HasLowControl(b) && !HasLowControl(c) && !HasLowControl(d)
    ensures Solid(a + b + c + d) && Solid(a + b + c) && Solid(a + b)
  {
    hide HasLowControl, IsSpace;
    LowControlAppend(a, b);
    LowControlAppend(a + b, c);
    LowControlAppend(a + b + c, d);
    assert (a + b + c + d)[0] == (a + b + c)[0] == (a + b)[0] == a[0];
  }

  lemma ClaudeIsSolid()
    ensures Solid(CLAUDE) && |CLAUDE| == 11
  {
  }

  lemma ReportedIsSolid()
    ensures Solid(REPORTED) && |REPORTED| == 29
  {
    ClaudeIsSolid();
    Extended(CLAUDE, " reported ", "a change", "");
  }

  lemma OutsideIsSolid()
    ensures Solid(OUTSIDE) && |OUTSIDE| == 71
  {
    ReportedIsSolid();
    Extended(REPORTED, " outside the ", "governed ", "workspace ");
    Extended(REPORTED + " outside the " + "governed " + "workspace ", "boundary: ", "", "");
  }

  lemma UngrantedIsSolid()
    ensures Solid(UNGRANTED) && |UNGRANTED| == 66
  {
    ReportedIsSolid();
    Extended(REPORTED, " outside its ", "granted ", "writable ");
    Extended(REPORTED + " outside its " + "granted " + "writable ", "paths: ", "", "");
  }

  lemma EscapesIsSolid()
    ensures Solid(ESCAPES) && |ESCAPES| == 66
  {
    ReportedIsSolid();
    Extended(REPORTED, " that escapes ", "the isolated ", "worktree: ");
  }

  lemma NotFoundIsSolid()
    ensures Solid(NOT_FOUND) && |NOT_FOUND| == 57
  {
    ReportedIsSolid();
    Extended(REPORTED, "d file that ", "does not ", "exist: ");
  }

  /** The causes with a fixed message. */
  predicate FixedCause(cause: Cause) {
    || cause.MalformedResult? || cause.FileUnreadable? || cause.EventLimit? || cause.ArtifactCountLimit?
    || cause.ArtifactByteLimit? || cause.WallClockExceeded? || cause.ProcessIoError? || cause.ExitedWithoutResult?
  }

  lemma FixedIsSolid(cause: Cause)
    requires FixedCause(cause)
    ensures Solid(MessageOf(cause)) && |MessageOf(cause)| <= MESSAGE_LIMIT
  {
    ClaudeIsSolid();
    match cause
    case MalformedResult => MalformedIsSolid();
    case FileUnreadable =>
      ReportedIsSolid();
      Extended(REPORTED, "d file that ", "could not ", "be read");
    case EventLimit | ArtifactCountLimit | ArtifactByteLimit => LimitIsSolid(cause);
    case WallClockExceeded => TimeoutIsSolid();
    case ProcessIoError => StreamFailedIsSolid();
    case ExitedWithoutResult => ExitedIsSolid();
  }

  lemma MalformedIsSolid()
    ensures Solid(MALFORMED) && |MALFORMED| == 66
  {
    ClaudeIsSolid();
    Extended(CLAUDE, "'s result line ", "did not ", "include a ");
    Extended(CLAUDE + "'s result line " + "did not " + "include a ", "boolean ", "is_error field", "");
  }

  lemma LimitIsSolid(cause: Cause)
    requires cause.EventLimit? || cause.ArtifactCountLimit? || cause.ArtifactByteLimit?
    ensures Solid(MessageOf(cause)) && |MessageOf(cause)| <= MESSAGE_LIMIT
  {
    assert Solid("The execution ");
    Extended("The execution ", "plan exceeds ", "its ", "");
    match cause
    case EventLimit => Extended(EXCEEDS, "event limit", "", "");
    case ArtifactCountLimit => Extended(EXCEEDS, "artifact ", "count limit", "");
    case ArtifactByteLimit => Extended(EXCEEDS, "artifact ", "byte limit", "");
  }

  lemma TimeoutIsSolid()
    ensures Solid(NO_RESULT_IN_TIME) && |NO_RESULT_IN_TIME| == 72
  {
    ClaudeIsSolid();
    Extended(CLAUDE, " did not ", "report a ", "terminal result ");
    Extended(CLAUDE + " did not " + "report a " + "terminal result ", "within its ", "wall-clock limit", "");
  }

  lemma StreamFailedIsSolid()
    ensures Solid(STREAM_FAILED) && |STREAM_FAILED| == 69
  {
    ClaudeIsSolid();
    Extended(CLAUDE, "'s output ", "stream failed ", "before ");
    Extended(CLAUDE + "'s output " + "stream failed " + "before ", "reporting a ", "terminal result", "");
  }

  lemma ExitedIsSolid()
    ensures Solid(EXITED) && |EXITED| == 53
  {
    ClaudeIsSolid();
    Extended(CLAUDE, " exited ", "before ", "reporting a ");
    Extended(CLAUDE + " exited " + "before " + "reporting a ", "terminal result", "", "");
  }

  lemma ProgressTextsAreSolid()
    ensures Solid(NO_DETAIL) && |NO_DETAIL| == 38 && Solid(TURN) && |TURN| == 27
    ensures Solid(INITIALIZED) && |INITIALIZED| == 31 && Solid(REPORTED_ERROR) && |REPORTED_ERROR| == 29
  {
    ClaudeIsSolid();
    Extended(CLAUDE, " reported no ", "further detail", "");
    Extended(CLAUDE, " produced ", "a turn", "");
    Extended(CLAUDE, " session ", "initialized", "");
    Extended(CLAUDE, " reported ", "an error", "");
  }

  // ---------------------------------------------------------------- texts with a variable part

  lemma {:induction false} SolidStays(s: string)
    requires s != "" && !IsSpace(s[0])
    ensures TrimEnd(s) != ""
    decreases |s|
  {
    if |s| > 1 && IsSpace(s[|s| - 1]) {
      SolidStays(s[..|s| - 1]);
    }
  }

  lemma PrefixControls(r: string, s: string)
    requires r <= s && HasLowControl(r)
    ensures HasLowControl(s)
  {
    var i :| 0 <= i < |r| && LowControl(r[i]);
    assert s[i] == r[i];
  }

  lemma SolidIsText(s: string)
    requires Solid(s) && |s| <= MESSAGE_LIMIT
    ensures RequiredText(s, MESSAGE_LIMIT).Ok?
  {
    hide IsSpace, HasLowControl;
    StripSolid(s);
    SolidStays(s);
    if HasLowControl(TrimEnd(s)) {
      PrefixControls(TrimEnd(s), s);
    }
  }

  /** There is room for the path behind the head, and no control character but at the path's end. */
  predicate CanName(head: string, path: string) {
    !HasLowControl(TrimEnd(path)) && |head| + |TrimEnd(path)| <= MESSAGE_LIMIT
  }

  lemma NamesPath(head: string, path: string)
    requires Solid(head) && |head| <= MESSAGE_LIMIT
    ensures RequiredText(head + path, MESSAGE_LIMIT).Ok? <==> CanName(head, path)
    ensures RequiredText(head + path, MESSAGE_LIMIT).Err? ==>
              RequiredText(head + path, MESSAGE_LIMIT) == Err(ValueFault)
  {
    hide IsSpace, HasLowControl, Strip, TrimEnd;
    assert (head + path)[0] == head[0];
    StripSolid(head + path);
    TrimEndAppend(head, path);
    SolidStays(head);
    LowControlAppend(head, TrimEnd(path));
    if TrimEnd(path) == "" {
      NoControlInSpace();
      if HasLowControl(TrimEnd(head)) {
        PrefixControls(TrimEnd(head), head);
      }
    }
  }

  /** A text of the model fits when no control character survives squeezing and truncation. */
  predicate TextFits(text: string) {
    !HasLowControl(Truncated(text))
  }

  /** A message is the squeezed text, cut to 2048 characters with an ellipsis as the last; or a remark on its absence. */
  lemma TruncatedSays(text: string)
    ensures
      var message, words := Truncated(text), Squeezed(text);
      && (words == "" ==> message == "Claude Code" + " reported no " + "further detail")
      && (1 <= |words| <= 2048 ==> message == words)
      && (|words| > 2048 ==> |message| == 2048 && message[..2047] == words[..2047] && message[2047] == '\U{2026}')
  {
    hide Squeezed;
  }

  lemma TruncatedIsTrimmed(text: string)
    ensures RequiredText(Truncated(text), MESSAGE_LIMIT).Ok? <==> TextFits(text)
    ensures |Squeezed(text)| <= MESSAGE_LIMIT ==> (TextFits(text) <==> !HasHardControl(text))
    ensures !HasHardControl(text) ==> TextFits(text)
  {
    hide IsSpace, HasLowControl, HasHardControl, Words, Join, Squeezed;
    var normalized, message := Squeezed(text), Truncated(text);
    SqueezedControls(text);
    ProgressTextsAreSolid();
    if normalized == "" {
      NoControlInSpace();
      SolidIsText(NO_DETAIL);
    } else if |normalized| <= MESSAGE_LIMIT {
      assert Strip(message) == message;
    } else {
      var front := normalized[..MESSAGE_LIMIT - 1];
      EllipsisIsPlain();
      LowControlAppend(front, [ELLIPSIS]);
      assert message[0] == normalized[0] && message[|message| - 1] == ELLIPSIS;
      assert Strip(message) == message;
      if HasLowControl(front) {
        PrefixControls(front, normalized);
      }
    }
  }

  lemma EllipsisIsPlain()
    ensures !IsSpace(ELLIPSIS) && !HasLowControl([ELLIPSIS])
  {
  }

  // ---------------------------------------------------------------- changes

  /** The fixed part of the message about a change. */
  function HeadOf(cause: Cause): string {
    match cause
    case OutsideBoundary(_) => OUTSIDE
    case OutsideWritablePaths(_) => UNGRANTED
    case EscapesWorktree(_) => ESCAPES
    case _ => NOT_FOUND
  }

  /** The causes that name a path. */
  predicate NamingCause(cause: Cause) {
    cause.OutsideBoundary? || cause.OutsideWritablePaths? || cause.EscapesWorktree? || cause.FileNotFound?
  }

  lemma FailureNamesPath(cause: Cause)
    requires NamingCause(cause)
    ensures Fails(cause).Ok? <==> CanName(HeadOf(cause), cause.path)
    ensures Fails(cause).Err? ==> Fails(cause) == Err(ValueFault)
  {
    hide Solid, CanName, RequiredText, CodeOf, CategoryOf;
    OutsideIsSolid();
    UngrantedIsSolid();
    EscapesIsSolid();
    NotFoundIsSolid();
    NamesPath(HeadOf(cause), cause.path);
  }

  lemma FixedFailure(cause: Cause)
    requires FixedCause(cause)
    ensures Fails(cause).Ok?
  {
    hide Solid, RequiredText, CodeOf, CategoryOf, MessageOf;
    FixedIsSolid(cause);
    SolidIsText(MessageOf(cause));
  }

  /**
   A change outside the governed workspace blocks the run exactly when the message can name it:
   the path has no control character but trailing white space, and the path without that space
   leaves room for the head of the message. Otherwise finalisation raises instead of blocking.
   So it is for all three kinds of violation.
   */
  lemma UnprintableChangeRaises(env: Setting, request: Request, files: seq<string>, sequence: nat, path: string)
    requires FirstViolation(env, request.writablePaths, files) == Some(path)
    ensures
      var cause := ViolationOf(env, request.writablePaths, path);
      var r := FinalizeChanges(env, request, files, sequence);
      && (cause.OutsideBoundary? || cause.OutsideWritablePaths? || cause.EscapesWorktree?) && cause.path == path
      && if HasLowControl(TrimEnd(path)) || |HeadOf(cause)| + |TrimEnd(path)| > MESSAGE_LIMIT
         then r == Err(ValueFault)
         else r.Ok? && r.value.outcome.Blocked? && r.value.failure.Some? && r.value.failure.value.category.Policy?
  {
    hide FirstViolation, Fails, CodeOf, MessageOf, RelativeNormal, WithinWritablePaths, TrimEnd, HasLowControl;
    FailureNamesPath(ViolationOf(env, request.writablePaths, path));
  }

  /** What the constructor of an artifact demands of a file's path and media type. */
  predicate ArtifactFits(env: Setting, path: string) {
    && PlainLine(Strip(path), 1024) && Strip(path) != "." && RelativeNormal(Strip(path))
    && PlainLine(Strip(env.mediaType(path)), 128)
  }

  /** The file is passed over or becomes an artifact. */
  predicate Usable(env: Setting, path: string) {
    env.file(path).Present? && (env.file(path).size == 0 || ArtifactFits(env, path))
  }

  /** The file does not make the building of the artifacts raise. */
  predicate FileFits(env: Setting, path: string) {
    match env.file(path)
    case Missing => CanName(NOT_FOUND, path)
    case Unreadable => true
    case Present(_, _) => Usable(env, path)
  }

  /** The first file that ends the loop over the changed files, if there is one. */
  predicate StopsAt(env: Setting, files: seq<string>, i: int) {
    0 <= i < |files| && !Usable(env, files[i]) && forall j | 0 <= j < i :: Usable(env, files[j])
  }

  predicate FilesFit(env: Setting, files: seq<string>) {
    forall i | 0 <= i < |files| && StopsAt(env, files, i) :: FileFits(env, files[i])
  }

  /** How the building of the artifacts ends, by the first file that is not usable. */
  lemma {:induction false} BuildEnds(env: Setting, files: seq<string>)
    ensures
      var built := BuildArtifacts(env, files);
      && ((forall f | f in files :: Usable(env, f)) <==> built.Ok? && built.value.Built?)
      && (built.Err? || !built.value.Built? ==>
            exists i :: StopsAt(env, files, i)
              && built == match env.file(files[i])
                          case Missing => Ok(MissingFile(files[i]))
                          case Unreadable => Ok(UnreadableFile)
                          case Present(_, _) => Err(ValueFault))
    decreases |files|
  {
    hide ArtifactFits, RelativeNormal;
    if files != [] {
      var front, path := files[..|files| - 1], files[|files| - 1];
      assert files == front + [path];
      BuildEnds(env, front);
      ArtifactIsMade(env, path);
      var before := BuildArtifacts(env, front);
      if before.Ok? && before.value.Built? {
        if !Usable(env, path) {
          assert forall j | 0 <= j < |front| :: files[j] in front;
          assert StopsAt(env, files, |front|);
        }
      } else {
        var i :| StopsAt(env, front, i)
          && before == match env.file(front[i])
                       case Missing => Ok(MissingFile(front[i]))
                       case Unreadable => Ok(UnreadableFile)
                       case Present(_, _) => Err(ValueFault);
        assert files[i] == front[i] && files[i] in files && StopsAt(env, files, i);
      }
    }
  }

  lemma ArtifactIsMade(env: Setting, path: string)
    ensures
      match env.file(path)
      case Present(digest, size) =>
        && (size > 0 && ArtifactFits(env, path) ==> MakeArtifact(env, path, digest, size).Ok?)
        && (size > 0 && !ArtifactFits(env, path) ==> MakeArtifact(env, path, digest, size) == Err(ValueFault))
      case _ => true
  {
    hide RelativeNormal, PlainLine;
  }

  /** Of two files that end the loop, there is only one. */
  lemma OneStop(env: Setting, files: seq<string>, i: int, j: int)
    requires StopsAt(env, files, i) && StopsAt(env, files, j)
    ensures i == j
  {
    hide Usable;
  }

  /** What a list of changed files must be for the judgement of a result line not to raise. */
  predicate ChangesFit(env: Setting, request: Request, files: seq<string>) {
    match FirstViolation(env, request.writablePaths, files)
    case Some(path) => CanName(HeadOf(ViolationOf(env, request.writablePaths, path)), path)
    case None => FilesFit(env, files)
  }

  /** The judgement of the changed files raises exactly when they do not fit. */
  lemma UnfitChangesRaise(env: Setting, request: Request, files: seq<string>, sequence: nat)
    ensures
      var r := FinalizeChanges(env, request, files, sequence);
      (r.Ok? <==> ChangesFit(env, request, files)) && (r.Err? ==> r == Err(ValueFault))
  {
    hide FirstViolation, Fails, CodeOf, MessageOf, RelativeNormal, WithinWritablePaths, CanName, StopsAt, BuildArtifacts;
    hide Usable, HeadOf;
    var violation := FirstViolation(env, request.writablePaths, files);
    if violation.Some? {
      FailureNamesPath(ViolationOf(env, request.writablePaths, violation.value));
    } else {
      BuiltChangesFit(env, request, files);
      FixedFailure(FileUnreadable);
      FixedFailure(EventLimit);
      FixedFailure(ArtifactCountLimit);
      FixedFailure(ArtifactByteLimit);
      NotFoundNames();
    }
  }

  lemma NotFoundNames()
    ensures forall path :: HeadOf(FileNotFound(path)) == NOT_FOUND
    ensures forall path :: Fails(FileNotFound(path)).Ok? <==> CanName(NOT_FOUND, path)
    ensures forall path :: Fails(FileNotFound(path)).Err? ==> Fails(FileNotFound(path)) == Err(ValueFault)
  {
    hide Fails, CanName;
    forall path: string
      ensures Fails(FileNotFound(path)).Ok? <==> CanName(NOT_FOUND, path)
      ensures Fails(FileNotFound(path)).Err? ==> Fails(FileNotFound(path)) == Err(ValueFault)
    {
      FailureNamesPath(FileNotFound(path));
    }
  }

  lemma BuiltChangesFit(env: Setting, request: Request, files: seq<string>)
    ensures
      var built := BuildArtifacts(env, files);
      && (built.Err? ==> built == Err(ValueFault))
      && (FilesFit(env, files) <==>
            built.Ok? && (built.value.MissingFile? ==> CanName(NOT_FOUND, built.value.path)))
  {
    hide ArtifactFits, CanName, BuildArtifacts;
    BuildEnds(env, files);
    var built := BuildArtifacts(env, files);
    if built.Ok? && built.value.Built? {
      assert forall i | 0 <= i < |files| :: files[i] in files;
    } else {
      var i :| StopsAt(env, files, i)
        && built == match env.file(files[i])
                    case Missing => Ok(MissingFile(files[i]))
                    case Unreadable => Ok(UnreadableFile)
                    case Present(_, _) => Err(ValueFault);
      forall j | StopsAt(env, files, j)
        ensures j == i
      {
        OneStop(env, files, i, j);
      }
    }
  }

  // ---------------------------------------------------------------- lines

  predicate IsResult(payload: map<string, Json>) {
    TypeOf(payload) == "result"
  }

  /** A result line that is judged without raising. */
  predicate ResultFits(env: Setting, request: Request, payload: map<string, Json>) {
    match Get(payload, "is_error")
    case Some(JBool(true)) =>
      (match Get(payload, "result")
       case Some(JStr(summary)) => summary == "" || TextFits(summary)
       case _ => true)
    case Some(JBool(false)) => ChangesFit(env, request, ChangedFiles(env, payload))
    case _ => true
  }

  /** A tool name fits in the event and in its metadata. */
  predicate ToolFits(name: string) {
    !HasLowControl(name) && |name| <= 1024
  }

  /** Any other line whose event can be built, or that has none. */
  predicate ProgressFits(payload: map<string, Json>) {
    var name := TypeOf(payload);
    if name == "assistant" then AssistantText(payload) == "" || TextFits(AssistantText(payload))
    else if name == "tool_use" || name == "tool_result" then ToolFits(ToolName(payload))
    else true
  }

  predicate LineFits(env: Setting, request: Request, payload: map<string, Json>) {
    if IsResult(payload) then ResultFits(env, request, payload) else ProgressFits(payload)
  }

  lemma UnfitResultRaises(env: Setting, request: Request, payload: map<string, Json>, sequence: nat)
    ensures
      var r := FinalizeResult(env, request, payload, sequence);
      (r.Ok? <==> ResultFits(env, request, payload)) && (r.Err? ==> r == Err(ValueFault))
  {
    hide FinalizeChanges, ChangesFit, PlainLine, Strip, TextFits, Truncated, ChangedFiles, CodeOf;
    match Get(payload, "is_error")
    case Some(JBool(true)) =>
      ProgressTextsAreSolid();
      SolidIsText(REPORTED_ERROR);
      match Get(payload, "result") {
        case Some(JStr(summary)) => TruncatedIsTrimmed(summary);
        case _ =>
      }
    case Some(JBool(false)) => UnfitChangesRaise(env, request, ChangedFiles(env, payload), sequence);
    case _ => FixedFailure(MalformedResult);
  }

  lemma ToolNameIsTrimmed(payload: map<string, Json>)
    ensures ToolName(payload) != "" && Trimmed(ToolName(payload))
    ensures Strip(ToolName(payload)) == ToolName(payload)
  {
    match Get(payload, "name") {
      case Some(JStr(name)) => StripIsTrimmed(name);
      case _ =>
    }
    var default := "unknown_tool";
    assert |default| == 12 && default[0] == 'u' && default[11] == 'l';
  }

  lemma ToolMessage(head: string, name: string)
    requires Solid(head) && |head| <= 16 && name != "" && Trimmed(name)
    ensures RequiredText(head + name, MESSAGE_LIMIT).Ok? && RequiredText(name, 1024).Ok? <==> ToolFits(name)
  {
    hide IsSpace, HasLowControl;
    assert Strip(name) == name;
    var message := head + name;
    assert message[0] == head[0] && message[|message| - 1] == name[|name| - 1];
    assert Strip(message) == message;
    LowControlAppend(head, name);
  }

  lemma UnfitProgressRaises(payload: map<string, Json>, sequence: nat)
    ensures
      var pending := Translate(payload);
      if pending.None? then ProgressFits(payload)
      else MakeEvent(sequence, pending.value).Ok? <==> ProgressFits(payload)
  {
    hide RequiredText, TextFits, Truncated, AssistantText, ToolName, ToolFits;
    var text, tool := AssistantText(payload), ToolName(payload);
    ProgressTextsAreSolid();
    SolidIsText(TURN);
    SolidIsText(INITIALIZED);
    TruncatedIsTrimmed(text);
    ToolNameIsTrimmed(payload);
    ToolHeadsAreSolid();
    ToolMessage("Tool started: ", tool);
    ToolMessage("Tool finished: ", tool);
    TypesDiffer();
  }

  lemma ToolHeadsAreSolid()
    ensures Solid("Tool started: ") && Solid("Tool finished: ")
  {
  }

  lemma TypesDiffer()
    ensures "assistant" != "system" && "assistant" != "tool_use" && "assistant" != "tool_result"
    ensures "system" != "tool_use" && "system" != "tool_result"
  {
    assert |"assistant"| == 9 && |"system"| == 6 && |"tool_use"| == 8 && |"tool_result"| == 11;
  }

  /** A line makes the loop raise exactly when it does not fit and is not already past the event limit. */
  lemma UnfitLineRaises(env: Setting, request: Request, payload: map<string, Json>, sequence: nat)
    ensures
      var reaction := React(env, request, Some(payload), sequence);
      && (reaction.Finish? && reaction.ending.Err? <==>
            !LineFits(env, request, payload) && (IsResult(payload) || sequence + 2 <= request.limits.maxEvents))
      && (reaction.Finish? && reaction.ending.Err? ==> reaction.ending == Err(ValueFault))
  {
    hide FinalizeResult, ResultFits, Translate, ProgressFits, Fails, TypeOf;
    if IsResult(payload) {
      UnfitResultRaises(env, request, payload, sequence);
    } else {
      UnfitProgressRaises(payload, sequence + 1);
      FixedFailure(EventLimit);
      EventFault(payload, sequence + 1);
    }
  }

  lemma EventFault(payload: map<string, Json>, sequence: nat)
    ensures
      var pending := Translate(payload);
      pending.Some? && MakeEvent(sequence, pending.value).Err? ==> MakeEvent(sequence, pending.value) == Err(ValueFault)
  {
    hide Translate;
  }

  // ---------------------------------------------------------------- streams

  predicate TurnFits(env: Setting, request: Request, turn: Turn) {
    turn.read.Line? && turn.read.payload.Some? ==> LineFits(env, request, turn.read.payload.value)
  }

  predicate TurnsFit(env: Setting, request: Request, turns: seq<Turn>) {
    forall i | 0 <= i < |turns| :: TurnFits(env, request, turns[i])
  }

  lemma CancelledFailure(reason: Option<string>)
    requires ReasonOk(reason)
    ensures reason.Some? ==> Fails(CancelledByCaller(reason.value)).Ok?
  {
    hide Fails;
    if reason.Some? {
      CancelledEnding(reason.value);
    }
  }

  lemma StopsAreFit(turn: Turn, before: Option<string>, after: Option<string>)
    requires ReasonOk(before) && ReasonOk(after)
    ensures
      var step := ReadStep(turn, before, after);
      step.Stop? ==> step.ending.Ok?
  {
    hide Fails, ReasonOk;
    CancelledFailure(before);
    CancelledFailure(after);
    FixedFailure(WallClockExceeded);
    FixedFailure(ProcessIoError);
    FixedFailure(ExitedWithoutResult);
  }

  lemma ReasonsStayOk(env: Setting, reason: Option<string>, texts: seq<string>)
    requires ReasonOk(reason)
    ensures ReasonOk(AcceptAll(env, reason, texts))
  {
    hide ReasonOk, AcceptReasons;
    FirstReasonStays(reason, texts);
  }

  /** A loop over fit lines never raises, wherever it is cancelled, times out or fails. */
  lemma {:induction false} FitLoopSettles(
    env: Setting, request: Request, turns: seq<Turn>, reason: Option<string>, sequence: nat)
    requires ReasonOk(reason) && TurnsFit(env, request, turns)
    ensures Loop(env, request, turns, reason, sequence).ending.Ok?
    decreases |turns|
  {
    hide React, ReadStep, AcceptAll, Fails, ReasonOk, LineFits;
    FixedFailure(WallClockExceeded);
    CancelledFailure(reason);
    if turns != [] {
      var turn, later := turns[0], turns[1..];
      var heard := Heard(env, turn, reason);
      assert TurnFits(env, request, turn) && forall i | 0 <= i < |later| :: later[i] == turns[i + 1];
      ReasonsStayOk(env, reason, turn.during);
      StopsAreFit(turn, reason, heard);
      match ReadStep(turn, reason, heard)
      case Stop(_) =>
      case Got(payload) =>
        GotIsRead(turn, reason, heard);
        NoLineIsSkipped(env, request, sequence);
        if payload.Some? {
          UnfitLineRaises(env, request, payload.value, sequence);
        }
        ReasonsStayOk(env, heard, turn.after);
        FitLoopSettles(env, request, later, heard, sequence);
        FitLoopSettles(env, request, later, AcceptAll(env, heard, turn.after), sequence + 1);
    }
  }

  lemma GotIsRead(turn: Turn, before: Option<string>, after: Option<string>)
    ensures ReadStep(turn, before, after).Got? ==> turn.read == Line(ReadStep(turn, before, after).payload)
  {
    hide Fails;
  }

  lemma NoLineIsSkipped(env: Setting, request: Request, sequence: nat)
    ensures React(env, request, None, sequence) == Skip
  {
  }

  /**
   Every launched stream whose lines fit settles: what decides is only what the lines say, in
   their assistant texts, tool names, error summaries and changed files.
   */
  lemma FitStreamSettles(env: Setting, request: Request, reason: Option<string>, script: Script)
    requires LimitsOk(request.limits) && ReasonOk(reason)
    requires script.launched && TurnsFit(env, request, script.turns)
    ensures
      var t := Play(env, request, reason, script);
      var loop := Loop(env, request, script.turns, AcceptAll(env, reason, script.atStart), 1);
      t.raised.None? && loop.ending.Ok? && SettledOk(request, t, loop.ending.value)
  {
    hide Loop, Play, AcceptAll, ReasonOk, TurnsFit;
    ReasonsStayOk(env, reason, script.atStart);
    FitLoopSettles(env, request, script.turns, AcceptAll(env, reason, script.atStart), 1);
    StreamShape(env, request, reason, script);
  }

  /** Nobody cancels, the deadline is not reached, and the process writes lines. */
  predicate QuietTurn(turn: Turn) {
    !turn.expired && turn.read.Line? && turn.during == [] && turn.after == []
  }

  predicate EndsAt(turns: seq<Turn>, i: int)
    requires 0 <= i < |turns|
  {
    turns[i].read.Line? && turns[i].read.payload.Some? && IsResult(turns[i].read.payload.value)
  }

  /** The line at `i` comes before or is the first result line, and does not fit. */
  predicate UnfitAt(env: Setting, request: Request, turns: seq<Turn>, i: int) {
    && 0 <= i < |turns| && !TurnFits(env, request, turns[i])
    && forall j | 0 <= j < i :: !EndsAt(turns, j)
  }

  lemma {:induction false} QuietLoopRaises(env: Setting, request: Request, turns: seq<Turn>, sequence: nat)
    requires (forall i | 0 <= i < |turns| :: QuietTurn(turns[i])) && sequence + |turns| + 1 <= request.limits.maxEvents
    ensures
      Loop(env, request, turns, None, sequence).ending.Err? <==>
      exists i | 0 <= i < |turns| :: UnfitAt(env, request, turns, i)
    decreases |turns|
  {
    hide React, Fails, LineFits, IsResult;
    FixedFailure(WallClockExceeded);
    if turns != [] {
      var turn, later := turns[0], turns[1..];
      assert QuietTurn(turn) && forall i | 0 <= i < |later| :: later[i] == turns[i + 1];
      QuietLoopRaises(env, request, later, sequence);
      QuietLoopRaises(env, request, later, sequence + 1);
      UnfitLater(env, request, turns);
      NoLineIsSkipped(env, request, sequence);
      if turn.read.payload.Some? {
        UnfitLineRaises(env, request, turn.read.payload.value, sequence);
        ResultEnds(env, request, turn.read.payload.value, sequence);
      }
    }
  }

  lemma ResultEnds(env: Setting, request: Request, payload: map<string, Json>, sequence: nat)
    requires sequence + 2 <= request.limits.maxEvents
    ensures
      var reaction := React(env, request, Some(payload), sequence);
      reaction.Finish? <==> IsResult(payload) || reaction == Finish(Err(ValueFault))
  {
    hide FinalizeResult, Translate, Fails, TypeOf;
    EventFault(payload, sequence + 1);
  }

  lemma UnfitLater(env: Setting, request: Request, turns: seq<Turn>)
    requires turns != []
    ensures
      (exists i | 0 <= i < |turns| :: UnfitAt(env, request, turns, i)) <==>
      || !TurnFits(env, request, turns[0])
      || (!EndsAt(turns, 0) && exists i | 0 <= i < |turns| - 1 :: UnfitAt(env, request, turns[1..], i))
  {
    hide TurnFits;
    var later := turns[1..];
    assert forall j | 0 <= j < |later| :: EndsAt(turns, j + 1) <==> EndsAt(later, j);
    if exists i | 0 <= i < |turns| :: UnfitAt(env, request, turns, i) {
      var i :| 0 <= i < |turns| && UnfitAt(env, request, turns, i);
      if i > 0 {
        forall j | 0 <= j < i - 1
          ensures !EndsAt(later, j)
        {
          assert !EndsAt(turns, j + 1);
        }
        assert UnfitAt(env, request, later, i - 1);
      }
    }
    if !TurnFits(env, request, turns[0]) {
      assert UnfitAt(env, request, turns, 0);
    }
    if !EndsAt(turns, 0) && exists i | 0 <= i < |later| :: UnfitAt(env, request, later, i) {
      var i :| 0 <= i < |later| && UnfitAt(env, request, later, i);
      assert forall j | 0 < j < i + 1 :: EndsAt(turns, j) <==> EndsAt(later, j - 1);
      assert UnfitAt(env, request, turns, i + 1);
    }
  }

  /**
   Left alone, with room for an event for every line, a launched stream raises exactly when some
   line up to its first result line does not fit; it then has no result.
   */
  lemma QuietStreamRaises(env: Setting, request: Request, script: Script)
    requires LimitsOk(request.limits) && script.launched && script.atStart == []
    requires forall i | 0 <= i < |script.turns| :: QuietTurn(script.turns[i])
    requires |script.turns| + 2 <= request.limits.maxEvents
    ensures
      var t := Play(env, request, None, script);
      && (t.raised.Some? <==> exists i | 0 <= i < |script.turns| :: UnfitAt(env, request, script.turns, i))
      && (t.result.None? <==> t.raised.Some?)
  {
    hide Loop, Play, UnfitAt, QuietTurn;
    QuietLoopRaises(env, request, script.turns, 1);
    StreamShape(env, request, None, script);
  }

  /** A result line that reports one change. */
  function OneChange(path: string): map<string, Json> {
    map["type" := JStr("result"), "is_error" := JBool(false), "changed_files" := JArr([JStr(path)])]
  }

  const BELL := "/\U{7}"

  /**
   In every faithful setting: a run that reports a change at an absolute path with a control
   character in it is not settled as blocked; its stream raises after `STARTED`, without a result.
   */
  lemma BellStreamRaises(env: Setting, request: Request, atEnd: nat -> seq<string>)
    requires SettingOk(env) && LimitsOk(request.limits) && request.limits.maxEvents >= 3
    ensures
      var turns := [Turn(false, Line(Some(OneChange(BELL))), [], [])];
      var t := Play(env, request, None, Script([], true, turns, atEnd));
      t.result.None? && t.raised.Some?
  {
    hide SettledOk, UnsettledOk, Loop, Play, RelativeNormal, WithinWritablePaths, CanName;
    var turns := [Turn(false, Line(Some(OneChange(BELL))), [], [])];
    BellIsChange(env);
    BellIsOutside(env, request);
    assert !TurnFits(env, request, turns[0]);
    assert UnfitAt(env, request, turns, 0);
    assert QuietTurn(turns[0]);
    QuietStreamRaises(env, request, Script([], true, turns, atEnd));
  }

  lemma BellIsChange(env: Setting)
    requires SettingOk(env)
    ensures IsResult(OneChange(BELL)) && Get(OneChange(BELL), "is_error") == Some(JBool(false))
    ensures ChangedFiles(env, OneChange(BELL)) == [BELL]
  {
    assert |"type"| == 4 && |"is_error"| == 8 && |"changed_files"| == 13;
    var items := [JStr(BELL)];
    assert StringsIn(items) == {BELL} by {
      assert items[0].text == BELL;
    }
    SingletonList(env.sorted({BELL}), BELL);
  }

  lemma SingletonList(texts: seq<string>, text: string)
    requires Sorted(texts, {text})
    ensures texts == [text]
  {
    assert text in texts;
    SameIndex(texts, text, 0, |texts| - 1);
    assert texts[0] in texts;
  }

  lemma SameIndex(texts: seq<string>, text: string, i: nat, k: nat)
    requires Sorted(texts, {text}) && i < |texts| && k < |texts|
    ensures i == k
  {
    assert texts[i] in texts && texts[k] in texts;
  }

  lemma BellIsOutside(env: Setting, request: Request)
    ensures !RelativeNormal(BELL) && !CanName(OUTSIDE, BELL)
    ensures FirstViolation(env, request.writablePaths, [BELL]) == Some(BELL)
    ensures !ChangesFit(env, request, [BELL])
  {
    assert BELL[0] == '/' && BELL[1] == '\U{7}';
    if RelativeNormal(BELL) {
      NotAbsolute(BELL);
    }
    assert LowControl(BELL[1]) && !IsSpace(BELL[1]);
  }
}
