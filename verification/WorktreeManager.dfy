/**
 Creating and removing the worktree of a run, over a small model of Git: registered worktrees,
 branches, and commands that Git refuses, that fail, or during which the process dies.
 */
module WorktreeManager {
  import opened Wrappers
  import opened Text
  import opened PosixPaths
  import opened GitWorktrees

  // ---------------------------------------------------------------- Git

  /** Each branch with the commit it points at. */
  datatype Repo = Repo(worktrees: seq<WorktreeEntry>, branches: map<string, string>, dirty: bool)

  /** The first entry at a path: `next(entry for entry in entries if entry.path == path)`. */
  function Find(worktrees: seq<WorktreeEntry>, path: string): Option<WorktreeEntry> {
    if worktrees == [] then None
    else if worktrees[0].path == path then Some(worktrees[0])
    else Find(worktrees[1..], path)
  }

  function Without(worktrees: seq<WorktreeEntry>, path: string): seq<WorktreeEntry> {
    if worktrees == [] then []
    else (if worktrees[0].path == path then [] else [worktrees[0]]) + Without(worktrees[1..], path)
  }

  predicate BoundAt(e: WorktreeEntry, branch: string) {
    e.branch == Some(branch)
  }

  predicate CheckedOut(worktrees: seq<WorktreeEntry>, branch: string) {
    exists e | e in worktrees :: BoundAt(e, branch)
  }

  datatype Command =
    | Status
    | List
    | RevParse(branch: string)
    | Add(path: string, branch: string)
    | AddNew(branch: string, path: string, base: string)
    | Remove(path: string)
    | Delete(branch: string)

  /** Git itself would carry the command out. */
  predicate Possible(repo: Repo, c: Command) {
    match c
    case Status | List => true
    case RevParse(branch) => branch in repo.branches
    case Add(path, branch) =>
      branch in repo.branches && !CheckedOut(repo.worktrees, branch) && Find(repo.worktrees, path).None?
    case AddNew(branch, path, base) =>
      base in repo.branches && branch !in repo.branches && GitRefOk(branch) && Find(repo.worktrees, path).None?
    case Remove(path) =>
      repo.worktrees != [] && repo.worktrees[0].path != path && Find(repo.worktrees, path).Some?
    case Delete(branch) => branch in repo.branches && !CheckedOut(repo.worktrees, branch)
  }

  /** A branch made at the commit of another. */
  function Branched(branches: map<string, string>, branch: string, base: string): map<string, string> {
    if base in branches then branches[branch := branches[base]] else branches
  }

  function Effect(repo: Repo, c: Command): Repo {
    match c
    case Add(path, branch) => repo.(worktrees := repo.worktrees + [WorktreeEntry(path, Some(branch))])
    case AddNew(branch, path, base) =>
      repo.(
        worktrees := repo.worktrees + [WorktreeEntry(path, Some(branch))],
        branches := Branched(repo.branches, branch, base))
    case Remove(path) => repo.(worktrees := Without(repo.worktrees, path))
    case Delete(branch) => repo.(branches := repo.branches - {branch})
    case _ => repo
  }

  /** `git worktree add -b` makes the branch before the worktree. */
  function HalfEffect(repo: Repo, c: Command): Repo {
    match c
    case AddNew(branch, _, base) => repo.(branches := Branched(repo.branches, branch, base))
    case _ => repo
  }

  /** A command that Git accepts may still fail, half-way or at once, or outlive its caller. */
  datatype Fate = Works | Fails | FailsHalfway | KilledBefore | KilledHalfway | KilledAfter

  function Outcome(repo: Repo, c: Command, fate: Fate): Repo {
    if !Possible(repo, c) then repo
    else match fate
      case Works | KilledAfter => Effect(repo, c)
      case FailsHalfway | KilledHalfway => HalfEffect(repo, c)
      case Fails | KilledBefore => repo
  }

  datatype CommandResult = Done(lines: seq<string>) | Failed | Killed

  const HEAD_LINE := "HEAD 0000000"

  /** How Git lists an entry. */
  function AsListed(e: WorktreeEntry): Listed {
    Listed(e, [HEAD_LINE], if e.branch.None? then ["detached"] else [])
  }

  function AllListed(worktrees: seq<WorktreeEntry>): (r: seq<Listed>)
    ensures |r| == |worktrees|
    ensures forall i | 0 <= i < |r| :: r[i] == AsListed(worktrees[i])
  {
    seq(|worktrees|, i requires 0 <= i < |worktrees| => AsListed(worktrees[i]))
  }

  function Output(repo: Repo, c: Command): seq<string> {
    match c
    case Status => if repo.dirty then [" M file"] else []
    case List => Listing(AllListed(repo.worktrees), true)
    case _ => []
  }

  predicate KillsCaller(fate: Fate) {
    fate.KilledBefore? || fate.KilledHalfway? || fate.KilledAfter?
  }

  class Git {
    var repo: Repo
    var calls: nat
    const fates: nat -> Fate

    constructor (repo: Repo, fates: nat -> Fate)
      ensures this.repo == repo && this.fates == fates && calls == 0
    {
      this.repo := repo;
      this.fates := fates;
      calls := 0;
    }

    method Run(c: Command) returns (r: CommandResult)
      modifies this
      ensures calls == old(calls) + 1
      ensures repo == Outcome(old(repo), c, fates(old(calls)))
      ensures r == if KillsCaller(fates(old(calls))) then Killed
                   else if Possible(old(repo), c) && fates(old(calls)).Works? then Done(Output(old(repo), c))
                   else Failed
    {
      var fate := fates(calls);
      calls := calls + 1;
      r := if KillsCaller(fate) then Killed
           else if Possible(repo, c) && fate.Works? then Done(Output(repo, c)) else Failed;
      repo := Outcome(repo, c, fate);
    }
  }

  // ---------------------------------------------------------------- what a call is for

  /** The first entry shares neither its path nor its branch with a later one. */
  predicate Alone(e: WorktreeEntry, others: seq<WorktreeEntry>) {
    forall other | other in others :: other.path != e.path && (e.branch.Some? ==> other.branch != e.branch)
  }

  predicate AllAlone(worktrees: seq<WorktreeEntry>) {
    worktrees == [] || (Alone(worktrees[0], worktrees[1..]) && AllAlone(worktrees[1..]))
  }

  /** A repository as Git keeps it: one worktree a path, one a branch, the main one first. */
  predicate RepoOk(m: Manager, repo: Repo) {
    && repo.worktrees != [] && repo.worktrees[0].path == m.repositoryRoot
    && AllAlone(repo.worktrees)
    && (forall e | e in repo.worktrees :: WellSpaced(e) && (e.branch.Some? ==> e.branch.value in repo.branches))
  }

  datatype Context = Context(repositoryRoot: string, worktreeRoot: string, baseRef: string, branch: string)

  /** The checks of the repository context on what the manager hands it. */
  predicate ContextOk(c: Context) {
    && |c.repositoryRoot| <= 1024 && AbsoluteNormal(c.repositoryRoot) && !HasLowControl(c.repositoryRoot)
    && |c.worktreeRoot| <= 1024 && AbsoluteNormal(c.worktreeRoot) && !HasLowControl(c.worktreeRoot)
    && Apart(PartsOf(c.repositoryRoot), PartsOf(c.worktreeRoot))
    && GitRefOk(c.branch) && c.branch != c.baseRef && c.branch !in PROTECTED
  }

  function MakeContext(m: Manager, path: string, branch: string, base: string): Result<Context, GitFault> {
    var c := Context(Strip(m.repositoryRoot), Strip(path), base, branch);
    if ContextOk(c) then Ok(c) else Err(ContextFault)
  }

  /** What ensuring a worktree gives, and the repository afterwards, when every command works. */
  function EnsureRun(m: Manager, repo: Repo, path: string, branch: string, base: string)
    : (Result<Context, GitFault>, Repo)
  {
    if repo.dirty then (Err(DirtyFault), repo)
    else
      match Find(repo.worktrees, path)
      case Some(e) =>
        if e.branch != Some(branch) then (Err(ConflictFault), repo) else (MakeContext(m, path, branch, base), repo)
      case None =>
        var c := if branch in repo.branches then Add(path, branch) else AddNew(branch, path, base);
        if Possible(repo, c) then (MakeContext(m, path, branch, base), Effect(repo, c)) else (Err(CommandFault), repo)
  }

  /** The same for removing it. */
  function CleanupRun(repo: Repo, path: string, branch: string): (Result<(), GitFault>, Repo) {
    match Find(repo.worktrees, path)
    case Some(e) =>
      if e.branch != Some(branch) then (Err(UnrecognizedFault), repo)
      else if !Possible(repo, Remove(path)) then (Err(CommandFault), repo)
      else DeleteRun(Effect(repo, Remove(path)), branch)
    case None => DeleteRun(repo, branch)
  }

  function DeleteRun(repo: Repo, branch: string): (Result<(), GitFault>, Repo) {
    if branch !in repo.branches then (Ok(()), repo)
    else if Possible(repo, Delete(branch)) then (Ok(()), Effect(repo, Delete(branch)))
    else (Err(CommandFault), repo)
  }

  // ---------------------------------------------------------------- lists of worktrees

  lemma {:induction false} FindAppend(worktrees: seq<WorktreeEntry>, e: WorktreeEntry, path: string)
    ensures
      Find(worktrees + [e], path)
      == if Find(worktrees, path).Some? then Find(worktrees, path) else if e.path == path then Some(e) else None
  {
    if worktrees == [] {
      assert worktrees + [e] == [e];
    } else {
      assert (worktrees + [e])[1..] == worktrees[1..] + [e];
      FindAppend(worktrees[1..], e, path);
    }
  }

  lemma {:induction false} WithoutAppend(worktrees: seq<WorktreeEntry>, e: WorktreeEntry, path: string)
    ensures Without(worktrees + [e], path) == Without(worktrees, path) + if e.path == path then [] else [e]
  {
    if worktrees == [] {
      assert worktrees + [e] == [e];
    } else {
      assert (worktrees + [e])[1..] == worktrees[1..] + [e];
      WithoutAppend(worktrees[1..], e, path);
    }
  }

  lemma {:induction false} WithoutAbsent(worktrees: seq<WorktreeEntry>, path: string)
    requires Find(worktrees, path).None?
    ensures Without(worktrees, path) == worktrees
  {
    if worktrees != [] {
      WithoutAbsent(worktrees[1..], path);
    }
  }

  lemma {:induction false} WithoutTwice(worktrees: seq<WorktreeEntry>, path: string)
    ensures Without(Without(worktrees, path), path) == Without(worktrees, path)
    ensures Find(Without(worktrees, path), path).None?
    ensures forall e :: e in Without(worktrees, path) <==> e in worktrees && e.path != path
  {
    if worktrees != [] {
      WithoutTwice(worktrees[1..], path);
      var rest := Without(worktrees[1..], path);
      if worktrees[0].path != path {
        assert ([worktrees[0]] + rest)[1..] == rest;
      } else {
        assert [] + rest == rest;
      }
    }
  }

  lemma {:induction false} FindWithout(worktrees: seq<WorktreeEntry>, path: string, other: string)
    requires other != path
    ensures Find(Without(worktrees, path), other) == Find(worktrees, other)
  {
    if worktrees != [] {
      FindWithout(worktrees[1..], path, other);
      var rest := Without(worktrees[1..], path);
      if worktrees[0].path != path {
        assert ([worktrees[0]] + rest)[1..] == rest;
      } else {
        assert [] + rest == rest;
      }
    }
  }

  lemma {:induction false} FoundIsIn(worktrees: seq<WorktreeEntry>, path: string)
    ensures
      var found := Find(worktrees, path);
      found.Some? ==> found.value in worktrees && found.value.path == path
    ensures Find(worktrees, path).None? ==> forall e | e in worktrees :: e.path != path
  {
    if worktrees != [] {
      FoundIsIn(worktrees[1..], path);
    }
  }

  // ---------------------------------------------------------------- names belong to the manager

  /** The path and the branch of a run of this manager. */
  predicate Own(m: Manager, runId: string, path: string, branch: string) {
    WorktreePath(m, runId) == Ok(path) && BranchName(runId) == Ok(branch)
  }

  /** A worktree of a run lies apart from the repository, and its names have no space around them. */
  lemma OwnIsApart(m: Manager, runId: string, path: string, branch: string)
    requires ManagerOk(m) && Own(m, runId, path, branch)
    ensures Apart(PartsOf(m.repositoryRoot), PartsOf(path)) && path != m.repositoryRoot
    ensures AtOrBelow(PartsOf(m.worktreesRoot), PartsOf(path))
    ensures WellSpaced(WorktreeEntry(path, Some(branch))) && branch !in PROTECTED
  {
    var id := Strip(runId);
    var last := "work-run-" + id;
    assert forall i | 0 <= i < |id| :: SafeNameChar(id[i]);
    assert '/' !in "work-run-" && '/' !in last;
    var below := m.worktreesRoot[1..];
    assert path[1..] == below + ['/'] + last;
    SplitLast(below, last, '/');
    OwnIsTrimmed(m.worktreesRoot, id);
    var root, repository := Split(below, '/'), PartsOf(m.repositoryRoot);
    assert PartsOf(path) == root + [last] && PartsOf(m.worktreesRoot) == root;
    BelowIsApart(repository, root, last);
  }

  lemma BelowIsApart(repository: seq<string>, root: seq<string>, last: string)
    requires !(repository <= root) && !(root <= repository)
    ensures !(repository <= root + [last]) && !(root + [last] <= repository)
  {
    assert |repository| <= |root| && repository <= root + [last] ==> repository <= root;
    assert |repository| > |root| && repository <= root + [last] ==> repository == root + [last];
    assert root + [last] <= repository ==> root <= repository;
  }

  lemma OwnIsTrimmed(root: string, id: string)
    requires AbsoluteNormal(root) && RunIdOk(id)
    ensures WellSpaced(WorktreeEntry(root + "/" + ("work-run-" + id), Some("work-run/" + id)))
    ensures "work-run/" + id !in PROTECTED
  {
    hide AbsoluteNormal, NameParts;
    var path := root + "/" + ("work-run-" + id);
    assert path != "" && path[|path| - 1] == id[|id| - 1] && SafeNameChar(id[|id| - 1]);
    assert root != "" && root[0] == '/' by { RootStarts(root); }
    assert path[0] == '/';
    assert ("work-run/" + id)[|"work-run/" + id| - 1] == id[|id| - 1];
    assert |"work-run/"| == 9 && |"main"| == 4 && |"master"| == 6;
  }

  lemma RootStarts(root: string)
    requires AbsoluteNormal(root)
    ensures root != "" && root[0] == '/'
  {
  }

  // ---------------------------------------------------------------- what a call leaves alone

  /**
   Only this path and this branch may differ; and nothing at all, if the path holds a worktree
   that is bound to another branch.
   */
  predicate OnlyOwn(before: Repo, after: Repo, path: string, branch: string) {
    && Without(after.worktrees, path) == Without(before.worktrees, path)
    && after.branches - {branch} == before.branches - {branch}
    && after.dirty == before.dirty
    && (Find(before.worktrees, path).Some? && Find(before.worktrees, path).value.branch != Some(branch) ==> after == before)
  }

  /** The commands that the manager gives for a run, at the points where it gives them. */
  predicate OwnCommand(repo: Repo, c: Command, path: string, branch: string) {
    match c
    case Status | List | RevParse(_) => true
    case Add(p, b) => p == path && b == branch && Find(repo.worktrees, path).None?
    case AddNew(b, p, _) => p == path && b == branch && Find(repo.worktrees, path).None?
    case Remove(p) => p == path && Find(repo.worktrees, path) == Some(WorktreeEntry(path, Some(branch)))
    case Delete(b) => b == branch && Find(repo.worktrees, path).None?
  }

  lemma OutcomeIsOwn(repo: Repo, c: Command, path: string, branch: string, fate: Fate)
    requires OwnCommand(repo, c, path, branch)
    ensures OnlyOwn(repo, Outcome(repo, c, fate), path, branch)
  {
    hide Possible, CheckedOut, GitRefOk;
    WithoutAppend(repo.worktrees, WorktreeEntry(path, Some(branch)), path);
    WithoutTwice(repo.worktrees, path);
  }

  lemma OnlyOwnThen(a: Repo, b: Repo, c: Repo, path: string, branch: string)
    requires OnlyOwn(a, b, path, branch) && OnlyOwn(b, c, path, branch)
    ensures OnlyOwn(a, c, path, branch)
  {
    hide Without, Find;
  }

  /** The commit of a branch, if there is one. */
  function TipOf(repo: Repo, branch: string): Option<string> {
    if branch in repo.branches then Some(repo.branches[branch]) else None
  }

  /** What another run sees: its own worktree, and its own branch at the same commit. */
  predicate SameFor(before: Repo, after: Repo, path: string, branch: string) {
    && Find(after.worktrees, path) == Find(before.worktrees, path)
    && TipOf(after, branch) == TipOf(before, branch)
  }

  /** A call for one run changes nothing for any other. */
  lemma OthersSeeNothing(
    m: Manager, before: Repo, after: Repo, runId: string, path: string, branch: string, other: string, path': string,
    branch': string)
    requires Own(m, runId, path, branch) && Own(m, other, path', branch') && Strip(runId) != Strip(other)
    requires OnlyOwn(before, after, path, branch)
    ensures SameFor(before, after, path', branch')
  {
    hide Without, Find;
    NamesAreInjective(m, runId, other);
    FindWithout(before.worktrees, path, path');
    FindWithout(after.worktrees, path, path');
    var rest := before.branches - {branch};
    assert after.branches - {branch} == rest;
    assert branch' in rest <==> branch' in before.branches;
    assert branch' in rest <==> branch' in after.branches;
    assert branch' in rest ==> rest[branch'] == before.branches[branch'] == after.branches[branch'];
  }

  // ---------------------------------------------------------------- Git's order is kept

  lemma AddKeepsOk(m: Manager, repo: Repo, path: string, branch: string, branches: map<string, string>)
    requires RepoOk(m, repo) && Find(repo.worktrees, path).None? && !CheckedOut(repo.worktrees, branch)
    requires WellSpaced(WorktreeEntry(path, Some(branch))) && branch in branches && repo.branches.Keys <= branches.Keys
    ensures RepoOk(m, repo.(worktrees := repo.worktrees + [WorktreeEntry(path, Some(branch))], branches := branches))
  {
    hide WellSpaced, Find;
    FoundIsIn(repo.worktrees, path);
    UnboundIsNotCheckedOut(repo, branch);
    AloneAppend(repo.worktrees, WorktreeEntry(path, Some(branch)));
  }

  lemma {:induction false} AloneAppend(worktrees: seq<WorktreeEntry>, e: WorktreeEntry)
    requires AllAlone(worktrees) && forall other | other in worktrees :: other.path != e.path && other.branch != e.branch
    ensures AllAlone(worktrees + [e])
  {
    if worktrees == [] {
      assert worktrees + [e] == [e];
    } else {
      assert (worktrees + [e])[1..] == worktrees[1..] + [e];
      AloneAppend(worktrees[1..], e);
    }
  }

  lemma {:induction false} WithoutAlone(worktrees: seq<WorktreeEntry>, path: string)
    requires AllAlone(worktrees)
    ensures AllAlone(Without(worktrees, path))
  {
    if worktrees != [] {
      WithoutAlone(worktrees[1..], path);
      WithoutTwice(worktrees[1..], path);
      var rest := Without(worktrees[1..], path);
      if worktrees[0].path == path {
        assert [] + rest == rest;
      } else {
        assert ([worktrees[0]] + rest)[1..] == rest;
      }
    }
  }

  lemma RemoveKeepsOk(m: Manager, repo: Repo, path: string)
    requires RepoOk(m, repo) && path != m.repositoryRoot
    ensures RepoOk(m, repo.(worktrees := Without(repo.worktrees, path)))
  {
    hide WellSpaced;
    WithoutAlone(repo.worktrees, path);
    WithoutTwice(repo.worktrees, path);
  }

  /** A command for a run keeps the repository in order, whatever happens to it. */
  lemma OutcomeKeepsOk(m: Manager, repo: Repo, c: Command, runId: string, path: string, branch: string, fate: Fate)
    requires ManagerOk(m) && RepoOk(m, repo) && Own(m, runId, path, branch) && OwnCommand(repo, c, path, branch)
    ensures RepoOk(m, Outcome(repo, c, fate))
  {
    hide GitRefOk, WellSpaced, Find, Without, CheckedOut, ManagerOk, WorktreePath, BranchName;
    if Possible(repo, c) {
      OwnIsApart(m, runId, path, branch);
      match c
      case Add(_, _) =>
        AddKeepsOk(m, repo, path, branch, repo.branches);
      case AddNew(_, _, base) =>
        UnusedIsNotCheckedOut(m, repo, branch);
        AddKeepsOk(m, repo, path, branch, Branched(repo.branches, branch, base));
      case Remove(_) => RemoveKeepsOk(m, repo, path);
      case Delete(_) => UnboundIsNotCheckedOut(repo, branch);
      case _ =>
    }
  }

  lemma UnboundIsNotCheckedOut(repo: Repo, branch: string)
    requires !CheckedOut(repo.worktrees, branch)
    ensures forall e | e in repo.worktrees :: e.branch != Some(branch)
  {
    forall e | e in repo.worktrees
      ensures e.branch != Some(branch)
    {
      assert !BoundAt(e, branch);
    }
  }

  // ---------------------------------------------------------------- repeating and undoing

  /** The command that ensuring a worktree comes down to, if there is none yet. */
  function EnsureCommand(repo: Repo, path: string, branch: string, base: string): Command {
    if branch in repo.branches then Add(path, branch) else AddNew(branch, path, base)
  }

  lemma UnusedIsNotCheckedOut(m: Manager, repo: Repo, branch: string)
    requires RepoOk(m, repo) && branch !in repo.branches
    ensures !CheckedOut(repo.worktrees, branch)
  {
    hide WellSpaced;
  }

  /**
   Whatever happens to the command, repeating the call gives what an undisturbed call would
   have given: a worktree is never made twice, and a branch left half-way is taken up.
   */
  lemma EnsureResumes(m: Manager, repo: Repo, path: string, branch: string, base: string, fate: Fate)
    requires RepoOk(m, repo) && !repo.dirty && Find(repo.worktrees, path).None?
    ensures
      var mid := Outcome(repo, EnsureCommand(repo, path, branch, base), fate);
      EnsureRun(m, mid, path, branch, base) == EnsureRun(m, repo, path, branch, base)
  {
    hide ContextOk, GitRefOk, RepoOk;
    FindAppend(repo.worktrees, WorktreeEntry(path, Some(branch)), path);
    if branch !in repo.branches {
      UnusedIsNotCheckedOut(m, repo, branch);
    }
  }

  /** Ensuring twice is ensuring once. */
  lemma EnsureIsIdempotent(m: Manager, repo: Repo, path: string, branch: string, base: string)
    requires RepoOk(m, repo)
    ensures
      var once := EnsureRun(m, repo, path, branch, base);
      EnsureRun(m, once.1, path, branch, base) == once
  {
    hide ContextOk, Possible, RepoOk;
    if !repo.dirty && Find(repo.worktrees, path).None? {
      EnsureResumes(m, repo, path, branch, base, Works);
    }
  }

  /**
   What ensuring a worktree gives. It fails for a dirty repository, for a path that another branch
   holds, and for a command that Git refuses, and then changes nothing. Otherwise the path is bound
   to the run's branch; a branch that was there keeps its commit, and a new one starts at the
   commit of the base. The context names the repository, the path, the base and the branch.
   */
  lemma EnsureTells(m: Manager, repo: Repo, path: string, branch: string, base: string)
    ensures
      var (r, after) := EnsureRun(m, repo, path, branch, base);
      var found := Find(repo.worktrees, path);
      if repo.dirty then r == Err(DirtyFault) && after == repo
      else if found.Some? && found.value.branch != Some(branch) then r == Err(ConflictFault) && after == repo
      else if
        && found.None?
        && if branch in repo.branches then CheckedOut(repo.worktrees, branch) else base !in repo.branches || !GitRefOk(branch)
      then r == Err(CommandFault) && after == repo
      else
        && Find(after.worktrees, path) == Some(WorktreeEntry(path, Some(branch)))
        && (found.Some? ==> after == repo)
        && (found.None? ==> TipOf(after, branch) == if branch in repo.branches then TipOf(repo, branch) else TipOf(repo, base))
        && (r.Ok? ==>
              && r.value.repositoryRoot == Strip(m.repositoryRoot) && r.value.worktreeRoot == Strip(path)
              && r.value.baseRef == base && r.value.branch == branch && ContextOk(r.value))
        && (r.Err? ==> r == Err(ContextFault))
  {
    hide ContextOk, GitRefOk, CheckedOut, Strip;
    FindAppend(repo.worktrees, WorktreeEntry(path, Some(branch)), path);
    FoundIsIn(repo.worktrees, path);
  }

  /** Where a cleanup can be interrupted: before, between and after its two commands. */
  predicate PartlyCleaned(repo: Repo, mid: Repo, path: string, branch: string) {
    || mid == repo
    || (&& Find(repo.worktrees, path) == Some(WorktreeEntry(path, Some(branch))) && Possible(repo, Remove(path))
        && mid == Effect(repo, Remove(path)))
    || mid == CleanupRun(repo, path, branch).1
  }

  /** An interrupted cleanup, repeated, ends as an uninterrupted one does. */
  lemma CleanupResumes(repo: Repo, mid: Repo, path: string, branch: string)
    requires PartlyCleaned(repo, mid, path, branch)
    ensures CleanupRun(mid, path, branch) == CleanupRun(repo, path, branch)
  {
    hide Without, CheckedOut, GitRefOk;
    WithoutTwice(repo.worktrees, path);
    FoundIsIn(repo.worktrees, path);
  }

  /**
   What cleaning up gives. A path that another branch holds is refused and nothing changes;
   otherwise the worktree goes, unless it is the main one, and then the branch, unless it is
   checked out elsewhere; nothing else changes.
   */
  lemma CleanupTells(m: Manager, repo: Repo, path: string, branch: string)
    requires RepoOk(m, repo)
    ensures
      var (r, after) := CleanupRun(repo, path, branch);
      var found := Find(repo.worktrees, path);
      var left := Without(repo.worktrees, path);
      if found.Some? && found.value.branch != Some(branch) then r == Err(UnrecognizedFault) && after == repo
      else if found.Some? && path == m.repositoryRoot then r == Err(CommandFault) && after == repo
      else if branch in repo.branches && CheckedOut(left, branch) then
        r == Err(CommandFault) && after == repo.(worktrees := left)
      else r == Ok(()) && after == repo.(worktrees := left, branches := repo.branches - {branch})
  {
    hide WellSpaced, GitRefOk, Without, CheckedOut, AllAlone;
    if Find(repo.worktrees, path).None? {
      WithoutAbsent(repo.worktrees, path);
    }
    assert branch !in repo.branches ==> repo.branches - {branch} == repo.branches;
  }

  /** A cleanup that succeeds leaves neither the worktree nor the branch. */
  lemma CleanupLeavesNothing(repo: Repo, path: string, branch: string)
    requires CleanupRun(repo, path, branch).0.Ok?
    ensures
      var after := CleanupRun(repo, path, branch).1;
      Find(after.worktrees, path).None? && branch !in after.branches
  {
    hide Without, CheckedOut, GitRefOk;
    WithoutTwice(repo.worktrees, path);
  }

  /** Cleaning up after ensuring restores the repository exactly. */
  lemma CleanupUndoesEnsure(m: Manager, repo: Repo, path: string, branch: string, base: string)
    requires RepoOk(m, repo) && path != m.repositoryRoot
    requires !repo.dirty && Find(repo.worktrees, path).None? && branch !in repo.branches
    requires Possible(repo, AddNew(branch, path, base))
    ensures CleanupRun(EnsureRun(m, repo, path, branch, base).1, path, branch) == (Ok(()), repo)
  {
    hide ContextOk, GitRefOk, Without;
    var e := WorktreeEntry(path, Some(branch));
    FindAppend(repo.worktrees, e, path);
    WithoutAppend(repo.worktrees, e, path);
    WithoutAbsent(repo.worktrees, path);
    UnusedIsNotCheckedOut(m, repo, branch);
    var mid := EnsureRun(m, repo, path, branch, base).1;
    assert mid == Effect(repo, AddNew(branch, path, base));
    assert mid.worktrees[0] == repo.worktrees[0];
    var removed := Effect(mid, Remove(path));
    assert removed.worktrees == repo.worktrees;
    assert Effect(removed, Delete(branch)).branches == repo.branches;
  }

  // ---------------------------------------------------------------- histories

  /** A call for a run, ensure or cleanup, seen on the repository. */
  datatype Change = Change(runId: string, after: Repo)

  function Latest(start: Repo, changes: seq<Change>): Repo {
    if changes == [] then start else changes[|changes| - 1].after
  }

  predicate ChangeOk(m: Manager, start: Repo, changes: seq<Change>, i: int) {
    && 0 <= i < |changes|
    && RunIdOk(Strip(changes[i].runId))
    && OnlyOwn(
         Latest(start, changes[..i]), changes[i].after, WorktreePath(m, changes[i].runId).value,
         BranchName(changes[i].runId).value)
  }

  predicate ChangesOk(m: Manager, start: Repo, changes: seq<Change>) {
    forall i | 0 <= i < |changes| :: ChangeOk(m, start, changes, i)
  }

  /**
   Any history of calls for other runs, with failures and interruptions anywhere, leaves a
   run's worktree and branch exactly as they were.
   */
  lemma {:induction false} RunsDoNotInterfere(
    m: Manager, start: Repo, changes: seq<Change>, runId: string, path: string, branch: string)
    requires Own(m, runId, path, branch) && ChangesOk(m, start, changes)
    requires forall i | 0 <= i < |changes| :: Strip(changes[i].runId) != Strip(runId)
    ensures SameFor(start, Latest(start, changes), path, branch)
    decreases |changes|
  {
    hide OnlyOwn, RunIdOk, Strip, SameFor;
    if changes == [] {
      NothingChanged(start, path, branch);
    } else {
      var n := |changes| - 1;
      var front := changes[..n];
      assert ChangesOk(m, start, front) by { FrontOk(m, start, changes, n); }
      RunsDoNotInterfere(m, start, front, runId, path, branch);
      assert ChangeOk(m, start, changes, n);
      var last := changes[n];
      OthersSeeNothing(
        m, Latest(start, front), last.after, last.runId, WorktreePath(m, last.runId).value,
        BranchName(last.runId).value, runId, path, branch);
      SameForThen(start, Latest(start, front), last.after, path, branch);
    }
  }

  lemma NothingChanged(repo: Repo, path: string, branch: string)
    ensures SameFor(repo, repo, path, branch)
  {
  }

  lemma SameForThen(a: Repo, b: Repo, c: Repo, path: string, branch: string)
    requires SameFor(a, b, path, branch) && SameFor(b, c, path, branch)
    ensures SameFor(a, c, path, branch)
  {
  }

  lemma FrontOk(m: Manager, start: Repo, changes: seq<Change>, n: nat)
    requires ChangesOk(m, start, changes) && n <= |changes|
    ensures ChangesOk(m, start, changes[..n])
  {
    hide OnlyOwn, RunIdOk, Strip;
    forall i | 0 <= i < n
      ensures ChangeOk(m, start, changes[..n], i)
    {
      assert ChangeOk(m, start, changes, i);
      assert changes[..n][..i] == changes[..i];
    }
  }

  /** What belongs to nobody: a worktree elsewhere, a branch without the prefix, or a path taken by another branch. */
  predicate Foreign(m: Manager, changes: seq<Change>, e: WorktreeEntry) {
    forall i | 0 <= i < |changes| && RunIdOk(Strip(changes[i].runId)) ::
      e.path != WorktreePath(m, changes[i].runId).value || e.branch != Some(BranchName(changes[i].runId).value)
  }

  lemma ForeignSurvives(before: Repo, after: Repo, path: string, branch: string, e: WorktreeEntry)
    requires OnlyOwn(before, after, path, branch) && (e.path != path || e.branch != Some(branch))
    requires Find(before.worktrees, e.path) == Some(e)
    ensures Find(after.worktrees, e.path) == Some(e)
  {
    hide Without, Find;
    if e.path != path {
      FindWithout(before.worktrees, path, e.path);
      FindWithout(after.worktrees, path, e.path);
    }
  }

  /** No history ever removes a worktree that is not bound to the branch of the run whose path it has. */
  lemma {:induction false} ForeignIsNeverRemoved(m: Manager, start: Repo, changes: seq<Change>, e: WorktreeEntry)
    requires ChangesOk(m, start, changes) && Foreign(m, changes, e) && Find(start.worktrees, e.path) == Some(e)
    ensures Find(Latest(start, changes).worktrees, e.path) == Some(e)
    decreases |changes|
  {
    hide OnlyOwn, RunIdOk, Strip, Find;
    if changes != [] {
      var n := |changes| - 1;
      var front := changes[..n];
      FrontOk(m, start, changes, n);
      ForeignIsNeverRemoved(m, start, front, e);
      assert ChangeOk(m, start, changes, n);
      ForeignSurvives(
        Latest(start, front), changes[n].after, WorktreePath(m, changes[n].runId).value,
        BranchName(changes[n].runId).value, e);
    }
  }

  // ---------------------------------------------------------------- the manager

  class GitWorktreeManager {
    const m: Manager
    const git: Git

    constructor (m: Manager, git: Git)
      ensures this.m == m && this.git == git
    {
      this.m := m;
      this.git := git;
    }

    /** Since `calls` was `first`, every command worked that Git did not refuse. */
    predicate Undisturbed(first: nat)
      reads git
    {
      forall n | first <= n < git.calls :: git.fates(n).Works?
    }

    /** The listing of the worktrees works, and the look-up of the branch after it fails. */
    predicate LookUpFails(first: nat)
    {
      git.fates(first).Works? && git.fates(first + 1).Fails?
    }

    method RunGit(c: Command) returns (r: Result<seq<string>, GitFault>)
      modifies git
      ensures git.calls == old(git.calls) + 1
      ensures git.repo == Outcome(old(git.repo), c, git.fates(old(git.calls)))
      ensures r.Ok? ==> Possible(old(git.repo), c) && git.fates(old(git.calls)).Works? && r.value == Output(old(git.repo), c)
      ensures git.fates(old(git.calls)).Works? ==>
                r == if Possible(old(git.repo), c) then Ok(Output(old(git.repo), c)) else Err(CommandFault)
      ensures r.Err? ==> r.error.CommandFault? || r.error.Interrupted?
    {
      var result := git.Run(c);
      match result
      case Done(lines) => return Ok(lines);
      case Failed => return Err(CommandFault);
      case Killed => return Err(Interrupted);
    }

    /** Any failure to resolve the branch reads as its absence. */
    method BranchExists(branch: string) returns (r: Result<bool, GitFault>)
      modifies git
      ensures git.calls == old(git.calls) + 1 && git.repo == old(git.repo)
      ensures r.Ok? && r.value ==> branch in git.repo.branches
      ensures git.fates(old(git.calls)).Fails? ==> r == Ok(false)
      ensures git.fates(old(git.calls)).Works? ==> r == Ok(branch in git.repo.branches)
      ensures r.Err? ==> r.error.Interrupted?
    {
      var result := git.Run(RevParse(branch));
      match result
      case Done(_) => return Ok(true);
      case Failed => return Ok(false);
      case Killed => return Err(Interrupted);
    }

    /** The first listed entry at the path. */
    method FindWorktree(path: string) returns (r: Result<Option<WorktreeEntry>, GitFault>)
      requires RepoOk(m, git.repo)
      modifies git
      ensures git.calls == old(git.calls) + 1 && git.repo == old(git.repo)
      ensures r.Ok? ==> r.value == Find(git.repo.worktrees, path)
      ensures git.fates(old(git.calls)).Works? ==> r.Ok?
      ensures r.Err? ==> r.error.CommandFault? || r.error.Interrupted?
    {
      hide Find, Listing, WellSpaced, Trim;
      var listed := RunGit(List);
      if listed.Err? {
        return Err(listed.error);
      }
      var entries := ParseWorktreeList(listed.value);
      ListedIsRead(m, git.repo);
      return Ok(Find(entries, path));
    }

    method RequireCleanRepository() returns (r: Result<(), GitFault>)
      modifies git
      ensures git.calls == old(git.calls) + 1 && git.repo == old(git.repo)
      ensures r.Ok? ==> !git.repo.dirty
      ensures git.fates(old(git.calls)).Works? ==> r == if git.repo.dirty then Err(DirtyFault) else Ok(())
    {
      var status := RunGit(Status);
      if status.Err? {
        return Err(status.error);
      }
      if status.value != [] {
        return Err(DirtyFault);
      }
      return Ok(());
    }

    /**
     Creates or takes up the worktree of a run. Whatever happens to its commands, only this
     run's path and branch can change, and repeating the call gives what the call would have
     given undisturbed.
     */
    method EnsureWorktree(runId: string, base: string) returns (r: Result<Context, GitFault>)
      requires ManagerOk(m) && RepoOk(m, git.repo)
      modifies git
      ensures RepoOk(m, git.repo)
      ensures base !in PROTECTED ==> r == Err(BaseBranchFault) && git.repo == old(git.repo)
      ensures base in PROTECTED && !RunIdOk(Strip(runId)) ==> r == Err(RunIdFault) && git.repo == old(git.repo)
      ensures base in PROTECTED && RunIdOk(Strip(runId)) ==>
                var path, branch := WorktreePath(m, runId).value, BranchName(runId).value;
                && OnlyOwn(old(git.repo), git.repo, path, branch)
                && EnsureRun(m, git.repo, path, branch, base) == EnsureRun(m, old(git.repo), path, branch, base)
                && (r.Ok? ==> (r, git.repo) == EnsureRun(m, old(git.repo), path, branch, base))
                && (Undisturbed(old(git.calls)) ==> (r, git.repo) == EnsureRun(m, old(git.repo), path, branch, base))
    {
      hide Find, RepoOk, MakeContext, Possible, RunIdOk, Strip, OnlyOwn;
      if base !in PROTECTED {
        return Err(BaseBranchFault);
      }
      var branchName, worktreePath := BranchName(runId), WorktreePath(m, runId);
      if branchName.Err? {
        return Err(RunIdFault);
      }
      var branch, path := branchName.value, worktreePath.value;
      NothingIsOwn(git.repo, path, branch);
      var clean := RequireCleanRepository();
      if clean.Err? {
        return Err(clean.error);
      }
      var existing := FindWorktree(path);
      if existing.Err? {
        return Err(existing.error);
      }
      if existing.value.Some? {
        if existing.value.value.branch != Some(branch) {
          return Err(ConflictFault);
        }
      } else {
        var known := BranchExists(branch);
        if known.Err? {
          return Err(known.error);
        }
        ghost var repo := git.repo;
        ghost var fate := git.fates(git.calls);
        var c := if known.value then Add(path, branch) else AddNew(branch, path, base);
        var added := RunGit(c);
        OutcomeIsOwn(repo, c, path, branch, fate);
        OutcomeKeepsOk(m, repo, c, runId, path, branch, fate);
        if c == EnsureCommand(repo, path, branch, base) {
          EnsureResumes(m, repo, path, branch, base, fate);
        } else {
          RefusedIsNothing(repo, path, branch, base, fate);
        }
        if added.Err? {
          return Err(added.error);
        }
      }
      r := MakeContext(m, path, branch, base);
    }

    /**
     Removes the worktree and the branch of a run, or refuses if the path belongs to another
     branch. Interrupted anywhere and repeated, it ends as it would have ended undisturbed. A
     success means that the worktree is gone; the branch is left behind exactly if it was there
     and the last command, the look-up of the branch, failed.
     */
    method Cleanup(runId: string, preserveEvidence: bool) returns (r: Result<(), GitFault>)
      requires ManagerOk(m) && RepoOk(m, git.repo)
      modifies git
      ensures RepoOk(m, git.repo)
      ensures preserveEvidence ==> r == Ok(()) && git.repo == old(git.repo)
      ensures !preserveEvidence && !RunIdOk(Strip(runId)) ==> r == Err(RunIdFault) && git.repo == old(git.repo)
      ensures !preserveEvidence && RunIdOk(Strip(runId)) ==>
                var path, branch := WorktreePath(m, runId).value, BranchName(runId).value;
                && OnlyOwn(old(git.repo), git.repo, path, branch)
                && CleanupRun(git.repo, path, branch) == CleanupRun(old(git.repo), path, branch)
                && (Undisturbed(old(git.calls)) ==> (r, git.repo) == CleanupRun(old(git.repo), path, branch))
                && (r.Ok? ==>
                      && git.calls > old(git.calls)
                      && Find(git.repo.worktrees, path).None?
                      && (branch in git.repo.branches <==>
                            branch in old(git.repo).branches && !git.fates(git.calls - 1).Works?))
      ensures RunIdOk(Strip(runId)) && LookUpFails(old(git.calls)) ==>
                Find(old(git.repo).worktrees, WorktreePath(m, runId).value).None? ==>
                  r == Ok(()) && git.repo == old(git.repo)
    {
      hide Find, RepoOk, Possible, RunIdOk, Strip, OnlyOwn, Without;
      if preserveEvidence {
        return Ok(());
      }
      var branchName, worktreePath := BranchName(runId), WorktreePath(m, runId);
      if branchName.Err? {
        return Err(RunIdFault);
      }
      var branch, path := branchName.value, worktreePath.value;
      ghost var before := git.repo;
      NothingIsOwn(before, path, branch);
      var existing := FindWorktree(path);
      if existing.Err? {
        return Err(existing.error);
      }
      if existing.value.Some? {
        if existing.value.value.branch != Some(branch) {
          return Err(UnrecognizedFault);
        }
        FoundIsIn(before.worktrees, path);
        ghost var fate := git.fates(git.calls);
        var removed := RunGit(Remove(path));
        OutcomeIsOwn(before, Remove(path), path, branch, fate);
        OutcomeKeepsOk(m, before, Remove(path), runId, path, branch, fate);
        RemovedIsPartlyCleaned(before, path, branch, fate);
        CleanupResumes(before, git.repo, path, branch);
        if removed.Err? {
          return Err(removed.error);
        }
        WithoutTwice(before.worktrees, path);
      }
      r := DeleteBranch(before, runId, path, branch);
    }

    /** The second half of a cleanup, once there is no worktree at the path. */
    method DeleteBranch(ghost before: Repo, ghost runId: string, path: string, branch: string)
      returns (r: Result<(), GitFault>)
      requires ManagerOk(m) && RepoOk(m, git.repo) && Own(m, runId, path, branch)
      requires OnlyOwn(before, git.repo, path, branch) && Find(git.repo.worktrees, path).None?
      requires CleanupRun(git.repo, path, branch) == CleanupRun(before, path, branch)
      modifies git
      ensures RepoOk(m, git.repo)
      ensures OnlyOwn(before, git.repo, path, branch)
      ensures CleanupRun(git.repo, path, branch) == CleanupRun(before, path, branch)
      ensures Undisturbed(old(git.calls)) ==> (r, git.repo) == CleanupRun(before, path, branch)
      ensures old(git.calls) < git.calls
      ensures git.fates(old(git.calls)).Fails? ==> r == Ok(()) && git.repo == old(git.repo)
      ensures r.Ok? ==>
                && git.repo.worktrees == old(git.repo).worktrees
                && (branch in git.repo.branches <==>
                      branch in old(git.repo).branches && !git.fates(git.calls - 1).Works?)
    {
      hide Find, Possible, OnlyOwn, Without, RepoOk, ManagerOk, Own;
      ghost var middle := git.repo;
      var known := BranchExists(branch);
      if known.Err? {
        return Err(known.error);
      }
      if known.value {
        ghost var fate := git.fates(git.calls);
        var deleted := RunGit(Delete(branch));
        OutcomeIsOwn(middle, Delete(branch), path, branch, fate);
        OutcomeKeepsOk(m, middle, Delete(branch), runId, path, branch, fate);
        OnlyOwnThen(before, middle, git.repo, path, branch);
        DeletedIsPartlyCleaned(middle, path, branch, fate);
        CleanupResumes(middle, git.repo, path, branch);
        if deleted.Err? {
          return Err(deleted.error);
        }
      }
      return Ok(());
    }
  }

  /**
   The gap of a cleanup, at a run whose branch is all that is left of it: the look-up of the
   branch fails, the cleanup reports success, and the branch is still there.
   */
  method LeaveBranchBehind() returns (r: Result<(), GitFault>, after: Repo)
    ensures r == Ok(()) && Find(after.worktrees, "/w/work-run-x").None? && "work-run/x" in after.branches
  {
    hide CleanupRun, OnlyOwn, RunIdOk, ManagerOk, RepoOk;
    var repo := Repo([WorktreeEntry("/r", Some("main"))], map["main" := "c0", "work-run/x" := "c1"], false);
    var manager := Manager("/r", "/w");
    PlacesAreOk();
    var git := new Git(repo, n => if n == 1 then Fails else Works);
    var worktrees := new GitWorktreeManager(manager, git);
    r := worktrees.Cleanup("x", false);
    after := git.repo;
  }

  lemma PlacesAreOk()
    ensures ManagerOk(Manager("/r", "/w"))
    ensures RepoOk(
      Manager("/r", "/w"),
      Repo([WorktreeEntry("/r", Some("main"))], map["main" := "c0", "work-run/x" := "c1"], false))
    ensures RunIdOk(Strip("x")) && BranchName("x") == Ok("work-run/x")
    ensures WorktreePath(Manager("/r", "/w"), "x") == Ok("/w/work-run-x")
  {
    PlacesAreApart();
    assert Strip("x") == "x";
    assert "work-run/" + "x" == "work-run/x";
    assert "/w" + "/" + ("work-run-" + "x") == "/w/work-run-x";
    var worktrees := [WorktreeEntry("/r", Some("main"))];
    assert worktrees[1..] == [];
    assert |"main"| == 4;
  }

  lemma PlacesAreApart()
    ensures ManagerOk(Manager("/r", "/w"))
  {
    assert "/r"[1..] == "r" && "/w"[1..] == "w";
    SplitWhole("r", '/');
    SplitWhole("w", '/');
    assert Split("r", '/') == ["r"] && Split("w", '/') == ["w"];
    assert PartsOf("/r") == ["r"] && PartsOf("/w") == ["w"];
    assert ["r"][0] != ["w"][0];
  }

  lemma NothingIsOwn(repo: Repo, path: string, branch: string)
    ensures OnlyOwn(repo, repo, path, branch)
  {
  }

  /** If the branch was wrongly thought absent, Git refuses to make it again. */
  lemma RefusedIsNothing(repo: Repo, path: string, branch: string, base: string, fate: Fate)
    requires branch in repo.branches
    ensures !Possible(repo, AddNew(branch, path, base)) && Outcome(repo, AddNew(branch, path, base), fate) == repo
  {
  }

  lemma RemovedIsPartlyCleaned(repo: Repo, path: string, branch: string, fate: Fate)
    requires Find(repo.worktrees, path) == Some(WorktreeEntry(path, Some(branch)))
    ensures PartlyCleaned(repo, Outcome(repo, Remove(path), fate), path, branch)
  {
  }

  lemma DeletedIsPartlyCleaned(repo: Repo, path: string, branch: string, fate: Fate)
    requires Find(repo.worktrees, path).None?
    ensures PartlyCleaned(repo, Outcome(repo, Delete(branch), fate), path, branch)
  {
  }

  /** What Git lists is read back as what is registered. */
  lemma ListedIsRead(m: Manager, repo: Repo)
    requires RepoOk(m, repo)
    ensures ParseFrom(Listing(AllListed(repo.worktrees), true), None, None) == repo.worktrees
  {
    hide WellSpaced, Listing, ParseFrom;
    var listed := AllListed(repo.worktrees);
    forall i | 0 <= i < |listed|
      ensures ListedOk(listed[i]) && WellSpaced(listed[i].entry)
    {
      NoiseOfHead();
      assert repo.worktrees[i] in repo.worktrees;
    }
    ListingRoundTrip(listed, true);
    assert Entries(listed) == repo.worktrees;
  }

  lemma NoiseOfHead()
    ensures Noise([HEAD_LINE]) && Noise(["detached"]) && Noise([])
  {
    assert WORKTREE[0] == 'w' && BRANCH[0] == 'b' && "detached"[0] == 'd';
    assert HEAD_LINE[0] == 'H';
  }
}
