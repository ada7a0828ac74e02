/** The string operations that the modelled code relies on, spelled out on `seq<char>`. */
module Text {

  /** The characters that `str.strip` and `str.isspace` treat as white space. */
  predicate IsSpace(c: char) {
    || c == ' '
    || '\t' <= c <= '\r'
    || '\U{1C}' <= c <= '\U{1F}'
    || c == '\U{85}' || c == '\U{A0}' || c == '\U{1680}'
    || '\U{2000}' <= c <= '\U{200A}'
    || c == '\U{2028}' || c == '\U{2029}' || c == '\U{202F}' || c == '\U{205F}' || c == '\U{3000}'
  }

  predicate Trimmed(s: string) {
    s == "" || (!IsSpace(s[0]) && !IsSpace(s[|s| - 1]))
  }

  predicate AllSpace(s: string) {
    forall i | 0 <= i < |s| :: IsSpace(s[i])
  }

  /** `s.strip()`. */
  function Strip(s: string): string {
    if s == "" then s
    else if IsSpace(s[0]) then Strip(s[1..])
    else if IsSpace(s[|s| - 1]) then Strip(s[..|s| - 1])
    else s
  }

  lemma {:induction false} StripIsTrimmed(s: string)
    ensures Trimmed(Strip(s)) && |Strip(s)| <= |s|
  {
    if s == "" {
    } else if IsSpace(s[0]) {
      StripIsTrimmed(s[1..]);
    } else if IsSpace(s[|s| - 1]) {
      StripIsTrimmed(s[..|s| - 1]);
    }
  }

  /** Trimming twice is trimming once. */
  lemma StripStable(s: string)
    ensures Strip(Strip(s)) == Strip(s)
  {
    StripIsTrimmed(s);
  }

  /** Only white space is removed, and only from the two ends. */
  lemma {:induction false} StripRemovesSpace(s: string) returns (left: string, right: string)
    ensures s == left + Strip(s) + right
    ensures AllSpace(left) && AllSpace(right)
  {
    hide IsSpace, AllSpace;
    AllSpaceGrows("", ' ');
    if s == "" || !(IsSpace(s[0]) || IsSpace(s[|s| - 1])) {
      left, right := "", "";
    } else if IsSpace(s[0]) {
      var rest;
      rest, right := StripRemovesSpace(s[1..]);
      AllSpaceGrows(rest, s[0]);
      left := [s[0]] + rest;
      assert s == [s[0]] + s[1..] == [s[0]] + (rest + Strip(s) + right) == left + Strip(s) + right;
    } else {
      var rest, last := [], s[|s| - 1];
      left, rest := StripRemovesSpace(s[..|s| - 1]);
      AllSpaceGrows(rest, last);
      right := rest + [last];
      assert s == s[..|s| - 1] + [last] == (left + Strip(s) + rest) + [last] == left + Strip(s) + right;
    }
  }

  lemma AllSpaceGrows(s: string, c: char)
    ensures AllSpace("")
    ensures AllSpace(s) && IsSpace(c) ==> AllSpace([c] + s) && AllSpace(s + [c])
  {
    hide IsSpace;
  }

  /** Stripping white space around a text that is already trimmed gives that text back. */
  lemma {:induction false} StripPadded(left: string, core: string, right: string)
    requires AllSpace(left) && AllSpace(right) && Trimmed(core)
    ensures Strip(left + core + right) == core
    decreases |left| + |right|
  {
    hide IsSpace;
    var s := left + core + right;
    if left != "" {
      assert s[1..] == left[1..] + core + right;
      StripPadded(left[1..], core, right);
    } else if right != "" {
      var shorter := right[..|right| - 1];
      assert s[..|s| - 1] == left + core + shorter;
      if core == "" {
        assert s[1..] == right[1..] == left + core + right[1..];
        StripPadded(left, core, right[1..]);
      } else {
        StripPadded(left, core, shorter);
      }
    } else {
      assert s == core;
    }
  }

  /** `s.rstrip()`. */
  function TrimEnd(s: string): (r: string)
    ensures r <= s && (r != "" ==> !IsSpace(r[|r| - 1]))
  {
    if s == "" || !IsSpace(s[|s| - 1]) then s else TrimEnd(s[..|s| - 1])
  }

  /** A text that starts without space is stripped at its end only. */
  lemma {:induction false} StripSolid(s: string)
    requires s != "" && !IsSpace(s[0])
    ensures Strip(s) == TrimEnd(s)
    decreases |s|
  {
    hide IsSpace;
    if IsSpace(s[|s| - 1]) {
      StripSolid(s[..|s| - 1]);
    }
  }

  lemma {:induction false} TrimEndAppend(a: string, b: string)
    ensures TrimEnd(a + b) == if TrimEnd(b) == "" then TrimEnd(a) else a + TrimEnd(b)
    decreases |b|
  {
    hide IsSpace;
    var s := a + b;
    if b == "" {
      assert s == a && TrimEnd(b) == "";
    } else {
      var front, last := b[..|b| - 1], b[|b| - 1];
      assert s[|s| - 1] == last && s[..|s| - 1] == a + front;
      if IsSpace(last) {
        assert TrimEnd(s) == TrimEnd(a + front) && TrimEnd(b) == TrimEnd(front);
        TrimEndAppend(a, front);
      } else {
        assert TrimEnd(s) == s && TrimEnd(b) == b;
      }
    }
  }

  predicate Spaceless(s: string) {
    forall i | 0 <= i < |s| :: !IsSpace(s[i])
  }

  /** `s.split()`: the runs of characters that are not white space. */
  function Words(s: string): (words: seq<string>)
    ensures s != "" && !IsSpace(s[0]) ==> words != []
  {
    if s == "" then []
    else
      var rest := Words(s[1..]);
      if IsSpace(s[0]) then rest
      else if |s| == 1 || IsSpace(s[1]) then [[s[0]]] + rest
      else [[s[0]] + rest[0]] + rest[1..]
  }

  predicate ProperWords(words: seq<string>) {
    forall w | w in words :: w != "" && Spaceless(w)
  }

  lemma {:induction false} WordsAreProper(s: string)
    ensures ProperWords(Words(s))
    decreases |s|
  {
    hide IsSpace;
    if s != "" {
      WordsAreProper(s[1..]);
      var rest := Words(s[1..]);
      if !IsSpace(s[0]) {
        if |s| == 1 || IsSpace(s[1]) {
          ProperFirst([s[0]], rest);
        } else {
          assert rest[0] in rest && s[1..][0] == s[1];
          SpacelessFirst(s[0], rest[0]);
          ProperFirst([s[0]] + rest[0], rest[1..]);
        }
      }
    }
  }

  lemma {:induction false} SpaceHasNoWords(gap: string, rest: string)
    requires AllSpace(gap)
    ensures Words(gap + rest) == Words(rest)
  {
    hide IsSpace;
    if gap == "" {
      assert gap + rest == rest;
    } else {
      assert (gap + rest)[1..] == gap[1..] + rest;
      SpaceHasNoWords(gap[1..], rest);
    }
  }

  /** A text without white space is one word. */
  lemma {:induction false} WordAlone(word: string)
    requires word != "" && Spaceless(word)
    ensures Words(word) == [word]
    decreases |word|
  {
    hide IsSpace;
    if |word| > 1 {
      assert Spaceless(word[1..]);
      WordAlone(word[1..]);
      assert [word[0]] + word[1..] == word;
    } else {
      assert word[1..] == "" && [word[0]] == word;
    }
  }

  lemma WordsGrow(a: string, s: string, rest: seq<string>, more: seq<string>)
    requires a != "" && |s| > 1 && s[0] == a[0] && (if |a| > 1 then s[1] == a[1] else IsSpace(s[1]))
    requires rest == Words(a[1..]) && Words(s[1..]) == rest + more
    ensures Words(s) == Words(a) + more
  {
    hide IsSpace, Words;
    WordsStep(s);
    WordsStep(a);
    if !IsSpace(a[0]) && |a| > 1 && !IsSpace(a[1]) {
      assert (rest + more)[0] == rest[0] && (rest + more)[1..] == rest[1..] + more;
    }
  }

  /** White space separates words, however much of it there is. */
  lemma {:induction false} WordsApart(a: string, gap: string, b: string)
    requires gap != "" && AllSpace(gap)
    ensures Words(a + gap + b) == Words(a) + Words(b)
    decreases |a|
  {
    hide IsSpace;
    var s := a + gap + b;
    if a == "" {
      assert s == gap + b;
      SpaceHasNoWords(gap, b);
      assert Words(a) == [] && Words(a) + Words(b) == Words(b);
    } else {
      assert s[0] == a[0] && s[1..] == a[1..] + gap + b;
      assert |s| > 1 && s[1] == if |a| > 1 then a[1] else gap[0];
      WordsApart(a[1..], gap, b);
      WordsGrow(a, s, Words(a[1..]), Words(b));
    }
  }

  /** How the words of a text come from those of the text without its first letter. */
  lemma WordsStep(s: string)
    requires s != ""
    ensures
      var rest := Words(s[1..]);
      && (|s| > 1 && !IsSpace(s[1]) ==> rest != [])
      && (IsSpace(s[0]) ==> Words(s) == rest)
      && (!IsSpace(s[0]) && (|s| == 1 || IsSpace(s[1])) ==> Words(s) == [[s[0]]] + rest)
      && (!IsSpace(s[0]) && |s| > 1 && !IsSpace(s[1]) ==> Words(s) == [[s[0]] + rest[0]] + rest[1..])
  {
    hide IsSpace;
  }

  lemma SpacelessFirst(c: char, word: string)
    requires !IsSpace(c) && Spaceless(word)
    ensures Spaceless([c] + word)
  {
    hide IsSpace;
    assert forall i | 0 < i < |[c] + word| :: ([c] + word)[i] == word[i - 1];
  }

  lemma ProperFirst(first: string, others: seq<string>)
    requires first != "" && Spaceless(first) && ProperWords(others)
    ensures ProperWords([first] + others)
  {
    hide Spaceless;
  }

  /** `" ".join(s.split())` */
  function Squeezed(s: string): string {
    Join(Words(s), " ")
  }

  lemma {:induction false} JoinIsTrimmed(words: seq<string>)
    requires ProperWords(words)
    ensures Trimmed(Join(words, " ")) && (words != [] ==> Join(words, " ") != "")
  {
    hide IsSpace;
    if words != [] {
      assert words[0] in words && Spaceless(words[0]);
      JoinIsTrimmed(words[1..]);
    }
  }

  predicate StartsWith(s: string, prefix: string) {
    prefix <= s
  }

  /** `needle` occurs in `s` at position `i`. */
  predicate OccursAt(s: string, needle: string, i: int) {
    0 <= i && i + |needle| <= |s| && s[i..i + |needle|] == needle
  }

  /** `separator.join(parts)`. */
  function Join(parts: seq<string>, separator: string): string {
    if parts == [] then ""
    else if |parts| == 1 then parts[0]
    else parts[0] + separator + Join(parts[1..], separator)
  }

  /** `s.split(c)` for a one-character separator. */
  function Split(s: string, c: char): (parts: seq<string>)
    ensures parts != []
    ensures forall p | p in parts :: c !in p
  {
    if s == "" then [""]
    else
      var rest := Split(s[1..], c);
      if s[0] == c then [""] + rest else [[s[0]] + rest[0]] + rest[1..]
  }

  lemma {:induction false} JoinSplit(s: string, c: char)
    ensures Join(Split(s, c), [c]) == s
  {
    if s != "" {
      var rest := Split(s[1..], c);
      JoinSplit(s[1..], c);
      if s[0] == c {
        assert ([""] + rest)[1..] == rest;
      } else {
        var parts := [[s[0]] + rest[0]] + rest[1..];
        assert parts[1..] == rest[1..];
        if |rest| > 1 {
          assert parts[0] + [c] + Join(parts[1..], [c]) == [s[0]] + (rest[0] + [c] + Join(rest[1..], [c]));
        }
      }
    }
  }

  lemma {:induction false} SplitWhole(part: string, c: char)
    requires c !in part
    ensures Split(part, c) == [part]
  {
    if part != "" {
      SplitWhole(part[1..], c);
      assert [part[0]] + part[1..] == part;
    }
  }

  /** A part in front of a separator is split off. */
  lemma {:induction false} SplitFirst(part: string, rest: string, c: char)
    requires c !in part
    ensures Split(part + [c] + rest, c) == [part] + Split(rest, c)
  {
    var s := part + [c] + rest;
    if part == "" {
      assert s[1..] == rest;
    } else {
      var tail := part[1..];
      assert s[1..] == tail + [c] + rest;
      SplitFirst(tail, rest, c);
      assert [s[0]] + tail == part;
    }
  }

  /** And a part behind a separator. */
  lemma {:induction false} SplitLast(s: string, part: string, c: char)
    requires c !in part
    ensures Split(s + [c] + part, c) == Split(s, c) + [part]
  {
    var all := s + [c] + part;
    if s == "" {
      assert all[1..] == part;
      SplitWhole(part, c);
      assert [""] + [part] == ["", part];
    } else {
      assert all[1..] == s[1..] + [c] + part;
      SplitLast(s[1..], part, c);
      var rest := Split(s[1..], c);
      if s[0] != c {
        assert (rest + [part])[1..] == rest[1..] + [part];
      }
    }
  }

  /** Splitting undoes joining when no part contains the separator. */
  lemma {:induction false} SplitJoin(parts: seq<string>, c: char)
    requires parts != [] && forall p | p in parts :: c !in p
    ensures Split(Join(parts, [c]), c) == parts
    decreases |parts|
  {
    if |parts| == 1 {
      SplitWhole(parts[0], c);
    } else {
      SplitJoin(parts[1..], c);
      SplitFirst(parts[0], Join(parts[1..], [c]), c);
      assert parts == [parts[0]] + parts[1..];
    }
  }

  /** The first separator marks where the first part ends. */
  lemma {:induction false} SplitHead(a: string, x: string, b: string, y: string, c: char)
    requires c !in a && c !in b
    requires a + [c] + x == b + [c] + y
    ensures a == b && x == y
  {
    var s := a + [c] + x;
    assert s[|a|] == c && s[|b|] == c;
    assert forall i | 0 <= i < |a| :: s[i] == a[i] && s[i] != c;
    assert forall i | 0 <= i < |b| :: s[i] == b[i] && s[i] != c;
    assert a == s[..|a|] && b == s[..|b|];
    assert x == s[|a| + 1..] && y == s[|b| + 1..];
  }

  lemma {:induction false} JoinHasSeparator(xs: seq<string>, c: char)
    requires xs != [] && forall p | p in xs :: c !in p
    ensures c in Join(xs, [c]) <==> |xs| > 1
  {
    if |xs| > 1 {
      assert Join(xs, [c])[|xs[0]|] == c;
    }
  }

  /** Joining with a character that no part contains loses nothing. */
  lemma {:induction false} JoinInjective(xs: seq<string>, ys: seq<string>, c: char)
    requires xs != [] && ys != []
    requires forall p | p in xs :: c !in p
    requires forall p | p in ys :: c !in p
    requires Join(xs, [c]) == Join(ys, [c])
    ensures xs == ys
  {
    JoinHasSeparator(xs, c);
    JoinHasSeparator(ys, c);
    if |xs| > 1 {
      SplitHead(xs[0], Join(xs[1..], [c]), ys[0], Join(ys[1..], [c]), c);
      JoinInjective(xs[1..], ys[1..], c);
      assert xs == [xs[0]] + xs[1..] && ys == [ys[0]] + ys[1..];
    }
  }

  /** The code points below 32. */
  predicate LowControl(c: char) {
    c < ' '
  }

  predicate HasLowControl(s: string) {
    exists i | 0 <= i < |s| :: LowControl(s[i])
  }

  lemma LowControlAppend(a: string, b: string)
    ensures HasLowControl(a + b) <==> HasLowControl(a) || HasLowControl(b)
  {
    var s := a + b;
    assert forall i | 0 <= i < |a| :: s[i] == a[i];
    assert forall i | 0 <= i < |b| :: s[|a| + i] == b[i];
    assert forall i | |a| <= i < |s| :: s[i] == b[i - |a|];
  }

  /** A control character that is no white space, so that squeezing leaves it. */
  predicate HardControl(c: char) {
    LowControl(c) && !IsSpace(c)
  }

  predicate HasHardControl(s: string) {
    exists i | 0 <= i < |s| :: HardControl(s[i])
  }

  predicate SomeLowControl(words: seq<string>) {
    exists w | w in words :: HasLowControl(w)
  }

  lemma {:induction false} WordsKeepControls(s: string)
    ensures SomeLowControl(Words(s)) <==> HasHardControl(s)
    decreases |s|
  {
    hide IsSpace, LowControl;
    if s != "" {
      var tail := s[1..];
      var rest, words := Words(tail), Words(s);
      WordsKeepControls(tail);
      assert s == [s[0]] + tail;
      assert HasHardControl(s) <==> HardControl(s[0]) || HasHardControl(tail) by {
        assert forall i | 0 <= i < |tail| :: s[i + 1] == tail[i];
      }
      if !IsSpace(s[0]) {
        assert HasLowControl([s[0]]) <==> LowControl(s[0]) by {
          assert [s[0]][0] == s[0];
        }
        if |s| == 1 || IsSpace(s[1]) {
          FirstControl([s[0]], rest);
        } else {
          FirstControl([s[0]] + rest[0], rest[1..]);
          FirstControl(rest[0], rest[1..]);
          LowControlAppend([s[0]], rest[0]);
          assert [rest[0]] + rest[1..] == rest;
        }
      }
    }
  }

  lemma FirstControl(first: string, others: seq<string>)
    ensures SomeLowControl([first] + others) <==> HasLowControl(first) || SomeLowControl(others)
  {
    hide HasLowControl;
    assert first in [first] + others;
    assert forall w | w in others :: w in [first] + others;
  }

  lemma {:induction false} JoinKeepsControls(words: seq<string>)
    ensures HasLowControl(Join(words, " ")) <==> SomeLowControl(words)
    decreases |words|
  {
    hide HasLowControl;
    NoControlInSpace();
    if words == [] {
    } else {
      JoinKeepsControls(words[1..]);
      FirstControl(words[0], words[1..]);
      assert [words[0]] + words[1..] == words;
      if |words| > 1 {
        LowControlAppend(words[0], " ");
        LowControlAppend(words[0] + " ", Join(words[1..], " "));
      } else {
        assert words[1..] == [];
      }
    }
  }

  lemma NoControlInSpace()
    ensures !HasLowControl(" ") && !HasLowControl("")
  {
  }

  /** Squeezing keeps exactly the control characters that are no white space. */
  lemma SqueezedControls(s: string)
    ensures Trimmed(Squeezed(s))
    ensures HasLowControl(Squeezed(s)) <==> HasHardControl(s)
  {
    hide HasLowControl, HasHardControl, Trimmed;
    WordsAreProper(s);
    JoinIsTrimmed(Words(s));
    JoinKeepsControls(Words(s));
    WordsKeepControls(s);
  }

  /** `[A-Za-z0-9._-]` */
  predicate SafeNameChar(c: char) {
    AsciiAlnum(c) || c == '.' || c == '_' || c == '-'
  }

  /** `[A-Za-z0-9][A-Za-z0-9._-]*`, up to a length. */
  predicate SafeName(s: string, maximum: nat) {
    1 <= |s| <= maximum && AsciiAlnum(s[0]) && forall i | 0 <= i < |s| :: SafeNameChar(s[i])
  }

  predicate AsciiAlnum(c: char) {
    'A' <= c <= 'Z' || 'a' <= c <= 'z' || '0' <= c <= '9'
  }
}
