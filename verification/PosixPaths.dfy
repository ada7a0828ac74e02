/** Lexical POSIX paths, as `PurePosixPath` treats them. */
module PosixPaths {
  import opened Text

  /** The components between slashes are real names. */
  predicate NameParts(parts: seq<string>) {
    forall p | p in parts :: p != "" && p != "." && p != ".."
  }

  /** A relative path that is its own normal form and does not climb; `.` is the root itself. */
  predicate RelativeNormal(s: string) {
    s == "." || NameParts(Split(s, '/'))
  }

  /** An absolute path that is its own normal form, does not climb, and is not `/`. */
  predicate AbsoluteNormal(s: string) {
    |s| >= 2 && s[0] == '/' && NameParts(Split(s[1..], '/'))
  }

  /** The components below the starting directory, or below `/`. */
  function PartsOf(s: string): seq<string> {
    if s == "." then [] else if s != "" && s[0] == '/' then Split(s[1..], '/') else Split(s, '/')
  }

  /** The path of the first `n` components of a relative path; `.` for none. */
  function Ancestor(s: string, n: nat): string
    requires n <= |PartsOf(s)|
  {
    if n == 0 then "." else Join(PartsOf(s)[..n], "/")
  }

  /** `path` is one of the proper ancestors of `s`: `path in {str(p) for p in s.parents}`. */
  predicate IsParent(path: string, s: string) {
    exists n | 0 <= n < |PartsOf(s)| :: Ancestor(s, n) == path
  }

  /** The directory `inner` lies at or below the directory `outer`. */
  predicate AtOrBelow(outer: seq<string>, inner: seq<string>) {
    outer <= inner
  }

  /** Two directories, neither at or below the other. */
  predicate Apart(a: seq<string>, b: seq<string>) {
    !AtOrBelow(a, b) && !AtOrBelow(b, a)
  }

  /** For normal relative paths, being an ancestor or equal is a prefix relation on components. */
  lemma ParentIsPrefix(path: string, s: string)
    requires RelativeNormal(path) && path != "." && RelativeNormal(s)
    ensures path == s || IsParent(path, s) <==> AtOrBelow(PartsOf(path), PartsOf(s))
  {
    var outer, inner := PartsOf(path), PartsOf(s);
    NotAbsolute(path);
    NotAbsolute(s);
    JoinSplit(path, '/');
    JoinSplit(s, '/');
    if outer <= inner {
      if |outer| < |inner| {
        assert inner[..|outer|] == outer && |outer| > 0;
        assert Ancestor(s, |outer|) == path;
        assert IsParent(path, s);
      } else {
        assert outer == inner;
        assert path == s;
      }
    }
    if path == s || IsParent(path, s) {
      if path != s {
        var n :| 0 <= n < |inner| && Ancestor(s, n) == path;
        assert forall p | p in inner[..n] :: p in inner;
        JoinInjective(outer, inner[..n], '/');
      }
    }
  }

  lemma NotAbsolute(s: string)
    requires RelativeNormal(s)
    ensures s != "" && s[0] != '/'
    ensures s != "." ==> PartsOf(s) == Split(s, '/')
  {
    EmptyHead(s);
    var parts := Split(s, '/');
    assert parts[0] in parts;
  }

  lemma EmptyHead(s: string)
    ensures Split(s, '/')[0] == "" <==> s == "" || s[0] == '/'
  {
  }

  // ---------------------------------------------------------------- what `PurePosixPath` makes of a text

  /** The components that count: empty ones and `.` are dropped. */
  function Names(parts: seq<string>): (names: seq<string>)
    ensures forall p | p in names :: p in parts && p != "" && p != "."
    ensures |names| <= |parts|
  {
    if parts == [] then []
    else
      var rest := Names(parts[1..]);
      if parts[0] == "" || parts[0] == "." then rest else [parts[0]] + rest
  }

  /** Two leading slashes are a root of their own; any other number is `/`. */
  function RootOf(s: string): string {
    if s == "" || s[0] != '/' then ""
    else if |s| >= 2 && s[1] == '/' && (|s| == 2 || s[2] != '/') then "//"
    else "/"
  }

  /** The components of `PurePosixPath(s)` below its root. */
  function NamesOf(s: string): seq<string> {
    Names(Split(s, '/'))
  }

  /** `PurePosixPath(s).as_posix()` */
  function AsPosix(s: string): string {
    if RootOf(s) == "" && NamesOf(s) == [] then "." else RootOf(s) + Join(NamesOf(s), "/")
  }

  lemma {:induction false} NamesAreAll(parts: seq<string>)
    ensures Names(parts) == parts <==> forall p | p in parts :: p != "" && p != "."
  {
    if parts != [] {
      NamesAreAll(parts[1..]);
      assert parts == [parts[0]] + parts[1..];
      if forall p | p in parts :: p != "" && p != "." {
        assert parts[0] in parts && forall p | p in parts[1..] :: p in parts;
      } else {
        var p :| p in parts && (p == "" || p == ".");
        assert p !in Names(parts);
      }
    }
  }

  lemma NormalNames(parts: seq<string>)
    ensures NameParts(parts) <==> Names(parts) == parts && ".." !in parts
  {
    NamesAreAll(parts);
  }

  /**
   A text is a normal relative path exactly when it is not empty, `PurePosixPath` gives it back as
   it is, and finds it neither absolute nor climbing.
   */
  lemma RelativeIsNormal(s: string)
    ensures RelativeNormal(s) <==> s != "" && AsPosix(s) == s && RootOf(s) == "" && ".." !in NamesOf(s)
  {
    hide Split, Join;
    var parts, names := Split(s, '/'), NamesOf(s);
    NormalNames(parts);
    JoinSplit(s, '/');
    if s == "." {
      SplitWhole(".", '/');
      assert parts == ["."] && parts[1..] == [];
    } else {
      if RelativeNormal(s) {
        NotAbsolute(s);
      }
      if AsPosix(s) == s && RootOf(s) == "" && names != [] {
        assert "" + Join(names, "/") == Join(names, "/");
        SplitJoin(names, '/');
      }
    }
  }

  /** The same for absolute paths, with neither `/` itself nor two leading slashes. */
  lemma AbsoluteIsNormal(s: string)
    ensures
      AbsoluteNormal(s)
      <==> RootOf(s) == "/" && AsPosix(s) == s && NamesOf(s) != [] && ".." !in NamesOf(s)
  {
    hide Split, Join, NameParts;
    if s != "" && s[0] == '/' {
      var rest := s[1..];
      var parts, names := Split(rest, '/'), NamesOf(s);
      assert s == "" + ['/'] + rest;
      SplitFirst("", rest, '/');
      assert ([""] + parts)[1..] == parts;
      assert names == Names(parts);
      NormalNames(parts);
      JoinSplit(rest, '/');
      EmptyHead(rest);
      if AbsoluteNormal(s) {
        assert parts[0] in parts;
        SlashFree(parts, rest);
      }
      if RootOf(s) == "/" && AsPosix(s) == s && names != [] {
        assert s[1..] == Join(names, "/");
        SplitJoin(names, '/');
        WholeIsLong(names, rest);
      }
    }
  }

  /** What begins with a name begins with no slash. */
  lemma SlashFree(parts: seq<string>, rest: string)
    requires parts == Split(rest, '/') && NameParts(parts)
    ensures rest != "" && rest[0] != '/'
  {
    EmptyHead(rest);
    assert parts[0] in parts;
  }

  lemma WholeIsLong(names: seq<string>, rest: string)
    requires names != [] && names == Split(rest, '/') && forall p | p in names :: p != ""
    ensures rest != ""
  {
    EmptyHead(rest);
    assert names[0] in names;
  }
}
