/** Wrapping untrusted text between tags that it cannot imitate. */
module UntrustedText {
  import opened Wrappers
  import opened Text

  datatype LabelFault = LabelFault

  /** `s.replace(c * 3, d * 3)`: leftmost occurrences first, none overlapping. */
  function Replace3(s: string, c: char, d: char): string {
    if |s| < 3 then s
    else if s[0] == c && s[1] == c && s[2] == c then [d, d, d] + Replace3(s[3..], c, d)
    else [s[0]] + Replace3(s[1..], c, d)
  }

  const OPEN := "<<<"
  const CLOSE := ">>>"
  const OPEN_MARK := '\U{2039}'
  const CLOSE_MARK := '\U{203A}'

  function Escape(text: string): string {
    Replace3(Replace3(text, '<', OPEN_MARK), '>', CLOSE_MARK)
  }

  predicate TripleAt(s: string, c: char, i: int) {
    0 <= i && i + 2 < |s| && s[i] == c && s[i + 1] == c && s[i + 2] == c
  }

  predicate HasTriple(s: string, c: char) {
    exists i | 0 <= i < |s| :: TripleAt(s, c, i)
  }

  /** Replacing keeps the length, and changes `c` to `d` where it changes anything. */
  lemma {:induction false} ReplaceAt(s: string, c: char, d: char)
    ensures |Replace3(s, c, d)| == |s|
    ensures forall i | 0 <= i < |s| ::
              Replace3(s, c, d)[i] == s[i] || (s[i] == c && Replace3(s, c, d)[i] == d)
    decreases |s|
  {
    if |s| >= 3 {
      ReplaceAt(s[3..], c, d);
      ReplaceAt(s[1..], c, d);
    }
  }

  /** No three in a row are left. */
  lemma {:induction false} ReplaceLeavesNone(s: string, c: char, d: char)
    requires c != d
    ensures !HasTriple(Replace3(s, c, d), c)
    decreases |s|
  {
    var r := Replace3(s, c, d);
    ReplaceAt(s, c, d);
    if |s| >= 3 {
      var step := if TripleAt(s, c, 0) then 3 else 1;
      var rest := Replace3(s[step..], c, d);
      ReplaceLeavesNone(s[step..], c, d);
      forall i | 0 <= i < |r|
        ensures !TripleAt(r, c, i)
      {
        if i >= step {
          assert r[step..] == rest;
          assert TripleAt(r, c, i) ==> TripleAt(rest, c, i - step);
        }
      }
    }
  }

  /** A text without three in a row is left alone. */
  lemma {:induction false} ReplaceNothing(s: string, c: char, d: char)
    requires !HasTriple(s, c)
    ensures Replace3(s, c, d) == s
    decreases |s|
  {
    if |s| >= 3 {
      assert !TripleAt(s, c, 0);
      forall i | 0 <= i < |s[1..]|
        ensures !TripleAt(s[1..], c, i)
      {
        assert !TripleAt(s, c, i + 1);
      }
      ReplaceNothing(s[1..], c, d);
    }
  }

  /** Replacing one character by another that is not `e` makes no three `e` in a row. */
  lemma ReplaceMakesNone(s: string, c: char, d: char, e: char)
    requires !HasTriple(s, e) && d != e
    ensures !HasTriple(Replace3(s, c, d), e)
  {
    var r := Replace3(s, c, d);
    ReplaceAt(s, c, d);
    forall i | 0 <= i < |r|
      ensures !TripleAt(r, e, i)
    {
      assert !TripleAt(s, e, i);
    }
  }

  /** An escaped text contains neither delimiter and is as long as the original. */
  lemma EscapeRemovesDelimiters(text: string)
    ensures |Escape(text)| == |text|
    ensures !HasTriple(Escape(text), '<') && !HasTriple(Escape(text), '>')
  {
    var half := Replace3(text, '<', OPEN_MARK);
    ReplaceAt(text, '<', OPEN_MARK);
    ReplaceAt(half, '>', CLOSE_MARK);
    ReplaceLeavesNone(text, '<', OPEN_MARK);
    ReplaceLeavesNone(half, '>', CLOSE_MARK);
    ReplaceMakesNone(half, '>', CLOSE_MARK, '<');
  }

  /** Escaping twice is escaping once, and exactly the texts without delimiters are left alone. */
  lemma EscapeIsStable(text: string)
    ensures Escape(Escape(text)) == Escape(text)
    ensures Escape(text) == text <==> !HasTriple(text, '<') && !HasTriple(text, '>')
  {
    EscapeRemovesDelimiters(text);
    ReplaceNothing(Escape(text), '<', OPEN_MARK);
    ReplaceNothing(Escape(text), '>', CLOSE_MARK);
    if !HasTriple(text, '<') && !HasTriple(text, '>') {
      ReplaceNothing(text, '<', OPEN_MARK);
      ReplaceNothing(text, '>', CLOSE_MARK);
    }
  }

  // ---------------------------------------------------------------- wrapping

  predicate LabelChar(c: char) {
    'A' <= c <= 'Z' || '0' <= c <= '9' || c == '_'
  }

  predicate LabelOk(name: string) {
    1 <= |name| <= 64 && 'A' <= name[0] <= 'Z' && forall i | 0 <= i < |name| :: LabelChar(name[i])
  }

  const BEGIN := "BEGIN_UNTRUSTED:"
  const END := "END_UNTRUSTED:"

  function Tag(word: string, name: string): string {
    OPEN + word + name + CLOSE
  }

  function Wrapped(name: string, escaped: string): string {
    Tag(BEGIN, name) + "\n" + escaped + "\n" + Tag(END, name)
  }

  function WrapUntrusted(text: string, name: string): Result<string, LabelFault> {
    if LabelOk(Strip(name)) then Ok(Wrapped(Strip(name), Escape(text))) else Err(LabelFault)
  }

  /** The word and the name of a tag contain neither delimiter character. */
  predicate PlainWord(s: string) {
    s != "" && forall i | 0 <= i < |s| :: s[i] != '<' && s[i] != '>' && s[i] != '\n'
  }

  lemma WordsArePlain(name: string)
    requires LabelOk(name)
    ensures PlainWord(BEGIN + name) && PlainWord(END + name)
  {
    assert |BEGIN| == 16 && |END| == 14;
    assert forall i | 0 <= i < |name| :: LabelChar(name[i]);
    assert PlainWord(BEGIN) && PlainWord(END);
  }

  /** In a tag, each delimiter occurs once: at its start and at its end. */
  lemma TagTriples(word: string)
    requires PlainWord(word)
    ensures forall i :: TripleAt(OPEN + word + CLOSE, '<', i) <==> i == 0
    ensures forall i :: TripleAt(OPEN + word + CLOSE, '>', i) <==> i == 3 + |word|
  {
    var tag := OPEN + word + CLOSE;
    assert |OPEN| == 3 && |CLOSE| == 3 && |tag| == |word| + 6;
    assert forall i | 0 <= i < 3 :: tag[i] == '<';
    assert forall i | 3 <= i < 3 + |word| :: tag[i] == word[i - 3];
    assert forall i | 3 + |word| <= i < |tag| :: tag[i] == '>';
  }

  /** Line feeds separate three parts, so three in a row lie within one part. */
  lemma TriplesInParts(a: string, b: string, d: string, c: char, i: int)
    requires c != '\n'
    ensures
      TripleAt(a + "\n" + b + "\n" + d, c, i) <==>
        TripleAt(a, c, i) || TripleAt(b, c, i - |a| - 1) || TripleAt(d, c, i - |a| - |b| - 2)
  {
    var s := a + "\n" + b + "\n" + d;
    var p, q := |a|, |a| + 1 + |b|;
    assert |s| == q + 1 + |d| && s[p] == '\n' && s[q] == '\n';
    assert forall k | 0 <= k < p :: s[k] == a[k];
    assert forall k | p < k < q :: s[k] == b[k - p - 1];
    assert forall k | q < k < |s| :: s[k] == d[k - q - 1];
  }

  lemma SingleTriple(s: string, c: char, i: int, text: string)
    requires text == [c, c, c]
    ensures TripleAt(s, c, i) <==> OccursAt(s, text, i)
  {
    if 0 <= i && i + 3 <= |s| {
      var part := s[i..i + 3];
      assert part[0] == s[i] && part[1] == s[i + 1] && part[2] == s[i + 2];
      if TripleAt(s, c, i) {
        assert part == text;
      }
    }
  }

  /**
   In wrapped text each delimiter occurs exactly twice: at the beginnings, and at the ends, of
   the two tags. So nothing in the text can be taken for a tag.
   */
  lemma OnlyTheTags(text: string, name: string, i: int)
    requires WrapUntrusted(text, name).Ok?
    ensures
      var w := WrapUntrusted(text, name).value;
      var begin := Tag(BEGIN, Strip(name));
      var end := Tag(END, Strip(name));
      && |w| == |begin| + |text| + |end| + 2
      && (OccursAt(w, OPEN, i) <==> i == 0 || i == |w| - |end|)
      && (OccursAt(w, CLOSE, i) <==> i == |begin| - 3 || i == |w| - 3)
  {
    hide Strip, LabelOk, Escape;
    var tag, escaped := Strip(name), Escape(text);
    var w := Wrapped(tag, escaped);
    WordsArePlain(tag);
    TagTriples(BEGIN + tag);
    TagTriples(END + tag);
    assert OPEN + (BEGIN + tag) + CLOSE == Tag(BEGIN, tag);
    assert OPEN + (END + tag) + CLOSE == Tag(END, tag);
    EscapeRemovesDelimiters(text);
    TriplesInParts(Tag(BEGIN, tag), escaped, Tag(END, tag), '<', i);
    TriplesInParts(Tag(BEGIN, tag), escaped, Tag(END, tag), '>', i);
    NoneIn(escaped, '<', i - |Tag(BEGIN, tag)| - 1);
    NoneIn(escaped, '>', i - |Tag(BEGIN, tag)| - 1);
    SingleTriple(w, '<', i, OPEN);
    SingleTriple(w, '>', i, CLOSE);
  }

  lemma NoneIn(s: string, c: char, i: int)
    requires !HasTriple(s, c)
    ensures !TripleAt(s, c, i)
  {
  }

  /** The name and the escaped text can be read off the wrapped text. */
  lemma WrappingIsInjective(name: string, escaped: string, name': string, escaped': string)
    requires LabelOk(name) && LabelOk(name') && Wrapped(name, escaped) == Wrapped(name', escaped')
    ensures name == name' && escaped == escaped'
  {
    hide Tag;
    var rest := ">>\n" + escaped + "\n" + Tag(END, name);
    var rest' := ">>\n" + escaped' + "\n" + Tag(END, name');
    var head := OPEN + BEGIN;
    TagSplits(name, escaped);
    TagSplits(name', escaped');
    assert (head + (name + [CLOSE[0]] + rest))[|head|..] == name + ['>'] + rest;
    assert (head + (name' + [CLOSE[0]] + rest'))[|head|..] == name' + ['>'] + rest';
    assert forall i | 0 <= i < |name| :: LabelChar(name[i]);
    assert forall i | 0 <= i < |name'| :: LabelChar(name'[i]);
    SplitHead(name, rest, name', rest', '>');
    var end := Tag(END, name);
    assert |rest| == |rest'| ==> |escaped| == |escaped'|;
    assert rest[3..3 + |escaped|] == escaped && rest'[3..3 + |escaped'|] == escaped';
  }

  lemma TagSplits(name: string, escaped: string)
    ensures
      Wrapped(name, escaped)
      == (OPEN + BEGIN) + (name + ['>'] + (">>\n" + escaped + "\n" + Tag(END, name)))
  {
    assert CLOSE == ['>'] + ">>";
    assert ">>\n" == ">>" + "\n";
  }

  /** The delimiters become the single angle quotation marks of their own side. */
  lemma MarksOfDelimiters()
    ensures Escape("<<<") == "\U{2039}\U{2039}\U{2039}" && Escape(">>>") == "\U{203A}\U{203A}\U{203A}"
  {
    assert Replace3("<<<"[3..], '<', OPEN_MARK) == "";
    assert Replace3(">>>"[3..], '>', CLOSE_MARK) == "";
    var marks := [OPEN_MARK, OPEN_MARK, OPEN_MARK];
    assert Replace3("<<<", '<', OPEN_MARK) == marks;
    ReplaceNothing(marks, '>', CLOSE_MARK);
    ReplaceNothing(">>>", '<', OPEN_MARK);
  }

  /** The two tags stand on lines of their own, with the trimmed label. */
  lemma TagsAreLines(text: string)
    ensures
      WrapUntrusted(text, " A ")
      == Ok(
        ("<<<" + "BEGIN_UNTRUSTED:" + "A" + ">>>") + "\n" + Escape(text)
        + "\n" + ("<<<" + "END_UNTRUSTED:" + "A" + ">>>"))
  {
    hide Escape, Strip;
    StripPadded(" ", "A", " ");
    assert " " + "A" + " " == " A ";
    assert LabelOk("A");
  }

  /** The first three in a row after a text without any are replaced. */
  lemma {:induction false} LeftmostFirst(front: string, c: char, d: char, rest: string)
    requires forall i | 0 <= i < |front| :: front[i] != c
    ensures Replace3(front + [c, c, c] + rest, c, d) == front + [d, d, d] + Replace3(rest, c, d)
  {
    var s := front + [c, c, c] + rest;
    if front == "" {
      assert s[3..] == rest;
    } else {
      assert s[1..] == front[1..] + [c, c, c] + rest;
      LeftmostFirst(front[1..], c, d, rest);
    }
  }
}
