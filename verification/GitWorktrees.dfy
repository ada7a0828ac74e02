/**
 The texts that one isolated Git worktree per run depends on: the reader of Git's worktree
 listing, the path and the branch derived from a run id, and which of those branches are refs.
 */
module GitWorktrees {
  import opened Wrappers
  import opened Text
  import opened PosixPaths

  datatype GitFault =
    | RunIdFault | BaseBranchFault | DirtyFault | ConflictFault | UnrecognizedFault | CommandFault | ContextFault
    | Interrupted

  datatype WorktreeEntry = WorktreeEntry(path: string, branch: Option<string>)

  // ---------------------------------------------------------------- the listing

  function RemovePrefix(s: string, prefix: string): string {
    if StartsWith(s, prefix) then s[|prefix|..] else s
  }

  const WORKTREE := "worktree "
  const BRANCH := "branch "
  const HEADS := "refs/heads/"

  /** The entry in progress, if any, as a list. */
  function Open(path: Option<string>, branch: Option<string>): seq<WorktreeEntry> {
    match path case None => [] case Some(p) => [WorktreeEntry(p, branch)]
  }

  /** Reading the lines from a point on, with the entry in progress. */
  function ParseFrom(lines: seq<string>, path: Option<string>, branch: Option<string>): seq<WorktreeEntry>
    decreases |lines|
  {
    if lines == [] then Open(path, branch)
    else
      var line := lines[0];
      if StartsWith(line, WORKTREE) then
        Open(path, branch) + ParseFrom(lines[1..], Some(Strip(RemovePrefix(line, WORKTREE))), None)
      else if StartsWith(line, BRANCH) then
        ParseFrom(lines[1..], path, Some(RemovePrefix(Strip(RemovePrefix(line, BRANCH)), HEADS)))
      else if line == "" && path.Some? then Open(path, branch) + ParseFrom(lines[1..], None, None)
      else ParseFrom(lines[1..], path, branch)
  }

  method ParseWorktreeList(lines: seq<string>) returns (entries: seq<WorktreeEntry>)
    ensures entries == ParseFrom(lines, None, None)
  {
    hide Strip, RemovePrefix;
    entries := [];
    var path: Option<string> := None;
    var branch: Option<string> := None;
    var i := 0;
    while i < |lines|
      invariant 0 <= i <= |lines|
      invariant ParseFrom(lines, None, None) == entries + ParseFrom(lines[i..], path, branch)
    {
      var line := lines[i];
      assert lines[i..][0] == line && lines[i..][1..] == lines[i + 1..];
      if StartsWith(line, WORKTREE) {
        entries := entries + Open(path, branch);
        path := Some(Strip(RemovePrefix(line, WORKTREE)));
        branch := None;
      } else if StartsWith(line, BRANCH) {
        branch := Some(RemovePrefix(Strip(RemovePrefix(line, BRANCH)), HEADS));
      } else if line == "" && path.Some? {
        entries := entries + Open(path, branch);
        path := None;
        branch := None;
      }
      i := i + 1;
    }
    entries := entries + Open(path, branch);
  }

  /** Lines about an entry that the reader has no use for, such as `HEAD …` or `locked`. */
  predicate Noise(lines: seq<string>) {
    forall i | 0 <= i < |lines| :: lines[i] != "" && !StartsWith(lines[i], WORKTREE) && !StartsWith(lines[i], BRANCH)
  }

  /** An entry as Git lists it. */
  datatype Listed = Listed(entry: WorktreeEntry, before: seq<string>, after: seq<string>)

  predicate ListedOk(l: Listed) {
    Noise(l.before) && Noise(l.after)
  }

  function EntryLines(l: Listed): seq<string> {
    [WORKTREE + l.entry.path] + l.before
    + (match l.entry.branch case None => [] case Some(branch) => [BRANCH + HEADS + branch])
    + l.after
  }

  /** The listing: entries separated by empty lines, with or without one at the end. */
  function Listing(entries: seq<Listed>, closed: bool): seq<string> {
    if entries == [] then []
    else if |entries| == 1 then EntryLines(entries[0]) + if closed then [""] else []
    else EntryLines(entries[0]) + [""] + Listing(entries[1..], closed)
  }

  /** What the reader makes of an entry: it trims the path and the branch. */
  function Trim(e: WorktreeEntry): WorktreeEntry {
    WorktreeEntry(
      Strip(e.path),
      match e.branch case None => None case Some(branch) => Some(RemovePrefix(Strip(HEADS + branch), HEADS)))
  }

  function TrimAll(entries: seq<Listed>): (r: seq<WorktreeEntry>)
    ensures |r| == |entries|
    ensures forall i | 0 <= i < |r| :: r[i] == Trim(entries[i].entry)
  {
    seq(|entries|, i requires 0 <= i < |entries| => Trim(entries[i].entry))
  }

  lemma {:induction false} NoiseIsSkipped(noise: seq<string>, rest: seq<string>, path: string, branch: Option<string>)
    requires Noise(noise)
    ensures ParseFrom(noise + rest, Some(path), branch) == ParseFrom(rest, Some(path), branch)
  {
    hide Strip, RemovePrefix;
    if noise == [] {
      assert noise + rest == rest;
    } else {
      assert (noise + rest)[1..] == noise[1..] + rest;
      NoiseIsSkipped(noise[1..], rest, path, branch);
    }
  }

  lemma PrefixIsRemoved(prefix: string, s: string)
    ensures StartsWith(prefix + s, prefix) && RemovePrefix(prefix + s, prefix) == s
  {
    assert (prefix + s)[..|prefix|] == prefix;
    assert (prefix + s)[|prefix|..] == s;
  }

  lemma BranchIsNoWorktree(s: string)
    ensures !StartsWith(BRANCH + s, WORKTREE) && BRANCH + s != "" && !StartsWith("", WORKTREE) && !StartsWith("", BRANCH)
  {
    assert (BRANCH + s)[0] == 'b' && WORKTREE[0] == 'w' && BRANCH[0] == 'b';
  }

  /** The lines of one entry leave that entry in progress. */
  lemma EntryIsRead(l: Listed, rest: seq<string>)
    requires ListedOk(l)
    ensures
      ParseFrom(EntryLines(l) + rest, None, None)
      == ParseFrom(rest, Some(Trim(l.entry).path), Trim(l.entry).branch)
  {
    hide Strip, RemovePrefix, Noise, StartsWith;
    var path := Strip(l.entry.path);
    var branchLines := match l.entry.branch case None => [] case Some(branch) => [BRANCH + HEADS + branch];
    var tail := branchLines + l.after + rest;
    var all := EntryLines(l) + rest;
    PrefixIsRemoved(WORKTREE, l.entry.path);
    assert all[0] == WORKTREE + l.entry.path && all[1..] == l.before + tail;
    NoiseIsSkipped(l.before, tail, path, None);
    match l.entry.branch
    case None =>
      assert tail == l.after + rest;
      NoiseIsSkipped(l.after, rest, path, None);
    case Some(branch) =>
      assert BRANCH + HEADS + branch == BRANCH + (HEADS + branch);
      PrefixIsRemoved(BRANCH, HEADS + branch);
      BranchIsNoWorktree(HEADS + branch);
      assert tail[0] == BRANCH + HEADS + branch && tail[1..] == l.after + rest;
      NoiseIsSkipped(l.after, rest, path, Trim(l.entry).branch);
  }

  /** Reading what Git lists gives back the entries, trimmed, in order. */
  lemma {:induction false} ListingIsRead(entries: seq<Listed>, closed: bool)
    requires forall i | 0 <= i < |entries| :: ListedOk(entries[i])
    ensures ParseFrom(Listing(entries, closed), None, None) == TrimAll(entries)
  {
    hide Strip, RemovePrefix, ListedOk, EntryLines, Trim;
    if entries != [] {
      var e := Trim(entries[0].entry);
      var more := if |entries| == 1 then [] else Listing(entries[1..], closed);
      var rest := if |entries| == 1 && !closed then [] else [""] + more;
      assert Listing(entries, closed) == EntryLines(entries[0]) + rest;
      EntryIsRead(entries[0], rest);
      BranchIsNoWorktree("");
      ListingIsRead(entries[1..], closed);
      assert rest != [] ==> rest[1..] == more;
      assert Listing([], closed) == [];
      assert TrimAll(entries) == [e] + TrimAll(entries[1..]);
    }
  }

  function Entries(entries: seq<Listed>): (r: seq<WorktreeEntry>)
    ensures |r| == |entries|
    ensures forall i | 0 <= i < |r| :: r[i] == entries[i].entry
  {
    seq(|entries|, i requires 0 <= i < |entries| => entries[i].entry)
  }

  /** No space around the path, and none after the branch. */
  predicate WellSpaced(e: WorktreeEntry) {
    && Trimmed(e.path)
    && (e.branch.Some? && e.branch.value != "" ==> !IsSpace(e.branch.value[|e.branch.value| - 1]))
  }

  lemma TrimIsIdentity(e: WorktreeEntry)
    ensures Trim(e) == e <==> WellSpaced(e)
  {
    StripIsTrimmed(e.path);
    if Trimmed(e.path) {
      StripPadded("", e.path, "");
      assert "" + e.path + "" == e.path;
    }
    if e.branch.Some? {
      BranchIsTrimmed(e.branch.value);
    }
  }

  /** Stripping a text with a solid head only shortens what follows the head. */
  lemma {:induction false} StripBehind(head: string, s: string) returns (kept: string)
    requires head != "" && !IsSpace(head[0]) && !IsSpace(head[|head| - 1])
    ensures Strip(head + s) == head + kept && kept <= s
    ensures kept == s <==> s == "" || !IsSpace(s[|s| - 1])
    decreases |s|
  {
    hide IsSpace;
    var all := head + s;
    assert all[0] == head[0];
    if s == "" {
      kept := "";
      assert all == head;
    } else {
      assert all[|all| - 1] == s[|s| - 1];
      if IsSpace(s[|s| - 1]) {
        kept := StripBehind(head, s[..|s| - 1]);
        assert all[..|all| - 1] == head + s[..|s| - 1];
      } else {
        kept := s;
      }
    }
  }

  lemma BranchIsTrimmed(branch: string)
    ensures RemovePrefix(Strip(HEADS + branch), HEADS) == branch <==>
            branch == "" || !IsSpace(branch[|branch| - 1])
  {
    hide Strip;
    assert HEADS != "" && !IsSpace(HEADS[0]) && !IsSpace(HEADS[|HEADS| - 1]) by {
      assert |HEADS| == 11 && HEADS[0] == 'r' && HEADS[10] == '/';
    }
    var kept := StripBehind(HEADS, branch);
    PrefixIsRemoved(HEADS, kept);
  }

  /** The entries come back unchanged exactly when no path or branch has space around it. */
  lemma ListingRoundTrip(entries: seq<Listed>, closed: bool)
    requires forall i | 0 <= i < |entries| :: ListedOk(entries[i])
    ensures ParseFrom(Listing(entries, closed), None, None) == Entries(entries) <==>
            forall i | 0 <= i < |entries| :: WellSpaced(entries[i].entry)
  {
    hide Trim, WellSpaced, ParseFrom, Listing;
    ListingIsRead(entries, closed);
    forall i | 0 <= i < |entries|
      ensures TrimAll(entries)[i] == Entries(entries)[i] <==> WellSpaced(entries[i].entry)
    {
      TrimIsIdentity(entries[i].entry);
    }
  }

  /** The lines of `git worktree list --porcelain`, spelled out for one entry. */
  lemma EntryIsSpelled(path: string, branch: string)
    ensures
      EntryLines(Listed(WorktreeEntry(path, Some(branch)), ["HEAD ab"], []))
      == ["worktree " + path, "HEAD ab", "branch " + "refs/heads/" + branch]
    ensures EntryLines(Listed(WorktreeEntry(path, None), [], ["detached"])) == ["worktree " + path, "detached"]
  {
  }

  lemma NoiseExample()
    ensures Noise(["HEAD ab"]) && Noise(["detached"]) && Noise([])
  {
    assert "HEAD ab"[0] == 'H' && "detached"[0] == 'd' && WORKTREE[0] == 'w' && BRANCH[0] == 'b';
  }

  /** A listing of a worktree on a branch and of a detached one, read line by line. */
  lemma ListingExample()
    ensures
      ParseFrom(
        ["worktree " + "/r", "HEAD ab", "branch " + "refs/heads/" + "main", "", "worktree " + "/w", "detached"],
        None, None)
      == [WorktreeEntry("/r", Some("main")), WorktreeEntry("/w", None)]
  {
    hide ParseFrom, EntryLines, Noise, TrimAll, Entries;
    var first := Listed(WorktreeEntry("/r", Some("main")), ["HEAD ab"], []);
    var second := Listed(WorktreeEntry("/w", None), [], ["detached"]);
    NoiseExample();
    EntryIsSpelled("/r", "main");
    EntryIsSpelled("/w", "");
    assert |"main"| == 4 && |"/r"| == 2 && |"/w"| == 2;
    assert [first, second][1..] == [second];
    assert Listing([first, second], false)
        == ["worktree " + "/r", "HEAD ab", "branch " + "refs/heads/" + "main", "", "worktree " + "/w", "detached"];
    ListingRoundTrip([first, second], false);
    assert Entries([first, second]) == [first.entry, second.entry];
  }

  // ---------------------------------------------------------------- names

  predicate RunIdOk(id: string) {
    SafeName(id, 128)
  }

  /** Two absolute directories, neither inside the other. */
  datatype Manager = Manager(repositoryRoot: string, worktreesRoot: string)

  predicate ManagerOk(m: Manager) {
    && AbsoluteNormal(m.repositoryRoot) && AbsoluteNormal(m.worktreesRoot)
    && Apart(PartsOf(m.repositoryRoot), PartsOf(m.worktreesRoot))
  }

  function BranchName(runId: string): Result<string, GitFault> {
    if RunIdOk(Strip(runId)) then Ok("work-run/" + Strip(runId)) else Err(RunIdFault)
  }

  function WorktreePath(m: Manager, runId: string): Result<string, GitFault> {
    if RunIdOk(Strip(runId)) then Ok(m.worktreesRoot + "/" + ("work-run-" + Strip(runId))) else Err(RunIdFault)
  }

  const PROTECTED := {"main", "master"}

  /** Different runs have different paths and branches, and no run has a protected branch. */
  lemma NamesAreInjective(m: Manager, a: string, b: string)
    requires BranchName(a).Ok? && BranchName(b).Ok? && Strip(a) != Strip(b)
    ensures BranchName(a).value != BranchName(b).value && WorktreePath(m, a).value != WorktreePath(m, b).value
    ensures BranchName(a).value !in PROTECTED
  {
    hide Strip, RunIdOk;
    var x, y := Strip(a), Strip(b);
    assert |"work-run/"| == 9 && |"main"| == 4 && |"master"| == 6 && |"work-run-"| == 9;
    assert ("work-run/" + x)[9..] == x && ("work-run/" + y)[9..] == y;
    var px, py := m.worktreesRoot + "/" + ("work-run-" + x), m.worktreesRoot + "/" + ("work-run-" + y);
    assert px[|m.worktreesRoot| + 1 + 9..] == x && py[|m.worktreesRoot| + 1 + 9..] == y;
  }

  predicate OccursPair(s: string, i: int) {
    0 <= i < |s| - 1 && s[i] == '.' && s[i + 1] == '.'
  }

  predicate EndsWith(s: string, suffix: string) {
    |suffix| <= |s| && s[|s| - |suffix|..] == suffix
  }

  predicate BadRefChar(c: char) {
    c == ' ' || c == '~' || c == '^' || c == ':' || c == '?' || c == '*' || c == '[' || c == '\\'
  }

  predicate ComponentOk(part: string) {
    (part != "" ==> part[0] != '.') && !EndsWith(part, ".lock")
  }

  predicate HasPair(s: string) {
    exists i | 0 <= i < |s| :: OccursPair(s, i)
  }

  predicate RefEndsOk(s: string) {
    s != "" && s[0] != '/' && s[0] != '-' && s[|s| - 1] != '/' && s[|s| - 1] != '.'
  }

  predicate RefCharsOk(s: string) {
    forall i | 0 <= i < |s| :: !BadRefChar(s[i]) && !LowControl(s[i])
  }

  predicate SlashPair(s: string, i: int) {
    0 <= i < |s| - 1 && ((s[i] == '/' && s[i + 1] == '/') || (s[i] == '@' && s[i + 1] == '{'))
  }

  predicate RefPairsOk(s: string) {
    forall i | 0 <= i < |s| :: !SlashPair(s, i)
  }

  predicate RefComponentsOk(s: string) {
    forall part | part in Split(s, '/') :: ComponentOk(part)
  }

  /** `_git_ref` on a text without surrounding space. */
  predicate GitRefOk(s: string) {
    |s| <= 256 && RefEndsOk(s) && RefCharsOk(s) && RefPairsOk(s) && !HasPair(s) && RefComponentsOk(s)
  }

  lemma BranchCharacter(id: string, i: nat)
    requires RunIdOk(id) && i < 9 + |id|
    ensures
      var s := "work-run/" + id;
      |s| == 9 + |id| && if i == 8 then s[i] == '/' else SafeNameChar(s[i])
  {
    assert |"work-run/"| == 9;
    var s := "work-run/" + id;
    if i >= 9 {
      assert s[i] == id[i - 9];
    } else {
      assert s[i] == "work-run/"[i];
    }
  }

  lemma BranchCharacters(id: string)
    requires RunIdOk(id)
    ensures RefCharsOk("work-run/" + id) && RefPairsOk("work-run/" + id)
    ensures RefEndsOk("work-run/" + id) <==> id[|id| - 1] != '.'
  {
    hide RunIdOk;
    var s := "work-run/" + id;
    BranchCharacter(id, 0);
    forall i: nat | i < |s|
      ensures if i == 8 then s[i] == '/' else SafeNameChar(s[i])
    {
      BranchCharacter(id, i);
    }
    assert s[0] == 'w';
    assert id != "" by { RunIdIsNotEmpty(id); }
    assert s[|s| - 1] == id[|id| - 1];
  }

  lemma RunIdIsNotEmpty(id: string)
    requires RunIdOk(id)
    ensures id != ""
  {
  }

  lemma PairsBehind(s: string, id: string)
    requires s == "work-run/" + id
    ensures HasPair(s) <==> HasPair(id)
  {
    assert |"work-run/"| == 9;
    assert forall i | 0 <= i < |id| :: s[9 + i] == id[i];
    assert forall i | 0 <= i < 9 :: s[i] != '.';
    if HasPair(id) {
      var i :| 0 <= i < |id| && OccursPair(id, i);
      assert OccursPair(s, 9 + i);
    }
    if HasPair(s) {
      var i :| 0 <= i < |s| && OccursPair(s, i);
      assert OccursPair(id, i - 9);
    }
  }

  lemma BranchComponents(id: string)
    requires RunIdOk(id)
    ensures RefComponentsOk("work-run/" + id) <==> !EndsWith(id, ".lock")
  {
    var head := "work-run";
    assert head + ['/'] + id == "work-run/" + id;
    assert forall i | 0 <= i < |id| :: SafeNameChar(id[i]);
    assert '/' !in head && '/' !in id;
    SplitFirst(head, id, '/');
    SplitWhole(id, '/');
    var parts := Split("work-run/" + id, '/');
    assert parts == [head, id];
    assert head in parts && id in parts;
    assert |head| == 8 && |".lock"| == 5 && head[3..][0] == 'k';
    assert ComponentOk(head);
  }

  /**
   Which run ids give a branch that Git and the repository context take: those without `..`,
   and not ending in `.` or `.lock`. The check of run ids lets the others through.
   */
  lemma WhichBranchesAreRefs(id: string)
    requires RunIdOk(id)
    ensures GitRefOk("work-run/" + id) <==> !HasPair(id) && id[|id| - 1] != '.' && !EndsWith(id, ".lock")
  {
    hide RefCharsOk, RefPairsOk, HasPair, RefComponentsOk, EndsWith, RefEndsOk;
    BranchCharacters(id);
    PairsBehind("work-run/" + id, id);
    BranchComponents(id);
  }

  /** A run id that is accepted and whose branch no Git takes. */
  lemma DottedIdIsNoRef()
    ensures RunIdOk("a..b") && !GitRefOk("work-run/" + "a..b")
  {
    hide GitRefOk;
    var id := "a..b";
    assert id[0] == 'a' && id[1] == '.' && id[2] == '.' && id[3] == 'b' && |id| == 4;
    assert OccursPair(id, 1);
    WhichBranchesAreRefs(id);
  }
}
