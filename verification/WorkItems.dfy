/**
 The approved specification: the work item as read from the provider, the text that is hashed
 for approval, and the request that hands that text to a coding executor.
 */
module WorkItems {
  import opened Wrappers
  import opened Text
  import opened WorkRuns

  datatype WorkItem = WorkItem(
    title: string, description: string, criteria: seq<string>, revision: string, contentSha256: string)

  function StripAll(texts: seq<string>): (r: seq<string>)
    ensures |r| == |texts|
    ensures forall i | 0 <= i < |r| :: r[i] == Strip(texts[i])
  {
    seq(|texts|, i requires 0 <= i < |texts| => Strip(texts[i]))
  }

  function CanonicalContent(title: string, description: string, criteria: seq<string>): string {
    Join([Strip(title), Strip(description)] + StripAll(criteria), "\n")
  }

  function ContentOf(item: WorkItem): string {
    CanonicalContent(item.title, item.description, item.criteria)
  }

  predicate PlainText(rules: Rules, s: string) {
    Trimmed(s) && forall i | 0 <= i < |s| :: !rules.control(s[i])
  }

  /** What the constructor of a work item leaves in these fields. */
  predicate WorkItemOk(rules: Rules, item: WorkItem) {
    && PlainText(rules, item.title) && 1 <= |item.title| <= 512
    && PlainText(rules, item.description) && |item.description| <= 50_000
    && (forall c | c in item.criteria :: PlainText(rules, c) && 1 <= |c| <= 2_000)
    && (forall i, j | 0 <= i < j < |item.criteria| :: item.criteria[i] != item.criteria[j])
    && PlainText(rules, item.revision) && 1 <= |item.revision| <= 128
    && IsSha256(item.contentSha256)
  }

  /** A line feed has Unicode category `Cc`. */
  predicate LineFeedIsControl(rules: Rules) {
    rules.control('\n')
  }

  lemma PartsAreLines(rules: Rules, item: WorkItem)
    requires LineFeedIsControl(rules) && WorkItemOk(rules, item)
    ensures
      var parts := [Strip(item.title), Strip(item.description)] + StripAll(item.criteria);
      && parts == [item.title, item.description] + item.criteria
      && (forall p | p in parts :: '\n' !in p)
  {
    var parts := [Strip(item.title), Strip(item.description)] + StripAll(item.criteria);
    forall c | c in item.criteria
      ensures Strip(c) == c && PlainText(rules, c)
    {
    }
    assert StripAll(item.criteria) == item.criteria;
    assert parts == [item.title, item.description] + item.criteria;
  }

  /** The lines of the hashed text are the title, the description and the acceptance criteria, in that order. */
  lemma ContentLines(rules: Rules, item: WorkItem)
    requires LineFeedIsControl(rules) && WorkItemOk(rules, item)
    ensures Split(ContentOf(item), '\n') == [item.title, item.description] + item.criteria
  {
    PartsAreLines(rules, item);
    SplitJoin([item.title, item.description] + item.criteria, '\n');
  }

  /** The hashed text determines the title, the description and the acceptance criteria. */
  lemma ContentIsInjective(rules: Rules, a: WorkItem, b: WorkItem)
    requires LineFeedIsControl(rules) && WorkItemOk(rules, a) && WorkItemOk(rules, b)
    requires ContentOf(a) == ContentOf(b)
    ensures a.title == b.title && a.description == b.description && a.criteria == b.criteria
  {
    hide ContentOf, WorkItemOk;
    ContentLines(rules, a);
    ContentLines(rules, b);
    var xs := [a.title, a.description] + a.criteria;
    var ys := [b.title, b.description] + b.criteria;
    assert xs[0] == ys[0] && xs[1] == ys[1] && xs[2..] == ys[2..];
  }

  /** An item with two criteria, given with space around its parts. */
  lemma ContentWithCriteria()
    ensures CanonicalContent(" T", "D ", ["C", " E"]) == "T\nD\nC\nE"
  {
    assert Strip(" T") == "T" && Strip("D ") == "D" && Strip("C") == "C" && Strip(" E") == "E" by {
      StripPadded(" ", "T", "");
      StripPadded("", "D", " ");
      StripPadded("", "C", "");
      StripPadded(" ", "E", "");
      assert " " + "T" + "" == " T" && "" + "D" + " " == "D " && "" + "C" + "" == "C" && " " + "E" + "" == " E";
    }
    var parts := ["T", "D", "C", "E"];
    assert StripAll(["C", " E"]) == ["C", "E"];
    assert ["T", "D"] + ["C", "E"] == parts;
    assert parts[1..] == ["D", "C", "E"] && parts[1..][1..] == ["C", "E"] && parts[1..][1..][1..] == ["E"];
    assert Join(["E"], "\n") == "E" && Join(["C", "E"], "\n") == "C" + "\n" + "E";
    assert Join(["D", "C", "E"], "\n") == "D" + "\n" + "C\nE";
    assert Join(parts, "\n") == "T" + "\n" + "D\nC\nE";
  }

  // ---------------------------------------------------------------- execution requests

  predicate ExecutorIdentifierChar(c: char) {
    AsciiAlnum(c) || c == '.' || c == '_' || c == ':' || c == '-'
  }

  predicate ExecutorIdentifierChars(s: string) {
    forall i | 0 <= i < |s| :: ExecutorIdentifierChar(s[i])
  }

  predicate IsExecutorIdentifier(s: string) {
    1 <= |s| <= 128 && AsciiAlnum(s[0]) && ExecutorIdentifierChars(s)
  }

  predicate ExactTextOk(s: string) {
    && Strip(s) != ""
    && |s| <= 1_000_000
    && forall i | 0 <= i < |s| :: LowControl(s[i]) ==> s[i] == '\t' || s[i] == '\n' || s[i] == '\r'
  }

  datatype ExecutionRequest = ExecutionRequest(
    executionId: string,
    issueKey: string,
    revision: string,
    content: string,
    contentSha256: string,
    approvedBy: string,
    toolNames: seq<string>)

  /** The checks of the specification and of the request, on fields that arrive trimmed. */
  predicate RequestOk(hash: string -> string, r: ExecutionRequest) {
    && |r.issueKey| <= 32 && IsIssueKey(r.issueKey)
    && IsSha256(r.contentSha256)
    && ExactTextOk(r.content)
    && hash(r.content) == r.contentSha256
    && IsExecutorIdentifier(r.revision)
    && IsExecutorIdentifier(r.approvedBy)
    && IsExecutorIdentifier(r.executionId)
    && forall i, j | 0 <= i < j < |r.toolNames| :: r.toolNames[i] != r.toolNames[j]
  }
}
