/**
 What the reader of documents says: the separators between blocks and between the parts of a
 section, and one document with every kind of node.
 */
module AdfExamples {
  import opened Wrappers
  import opened Text
  import opened JsonValues
  import opened JiraAdf

  // ---------------------------------------------------------------- blocks are never blank

  lemma {:induction false} BlocksAreTrimmed(nodes: seq<Json>)
    ensures forall b | b in Blocks(nodes) :: b.text != "" && Trimmed(b.text)
    decreases |nodes|
  {
    hide Rendering, Strip;
    if nodes != [] {
      BlocksAreTrimmed(nodes[..|nodes| - 1]);
      StripIsTrimmed(Rendering(nodes[|nodes| - 1]));
    }
  }

  lemma {:induction false} JoinedIsTrimmed(texts: seq<string>, separator: string)
    requires forall t | t in texts :: t != "" && Trimmed(t)
    ensures Strip(Join(texts, separator)) == Join(texts, separator)
    ensures texts != [] ==> Join(texts, separator) != "" && Trimmed(Join(texts, separator))
    decreases |texts|
  {
    hide IsSpace;
    if texts != [] {
      assert texts[0] in texts;
      if |texts| > 1 {
        assert forall t | t in texts[1..] :: t in texts;
        JoinedIsTrimmed(texts[1..], separator);
        var rest, joined := Join(texts[1..], separator), Join(texts, separator);
        assert joined == texts[0] + separator + rest;
        assert joined[0] == texts[0][0] && joined[|joined| - 1] == rest[|rest| - 1];
      }
    }
  }

  lemma {:induction false} PartsAreBlocks(blocks: seq<Block>, fold: string -> string, name: string)
    ensures forall t | t in Parts(blocks, fold, name) :: exists b | b in blocks :: b.text == t
    decreases |blocks|
  {
    hide Under;
    if blocks != [] {
      var n := |blocks| - 1;
      PartsAreBlocks(blocks[..n], fold, name);
      forall t | t in Parts(blocks, fold, name)
        ensures exists b | b in blocks :: b.text == t
      {
        if t in Parts(blocks[..n], fold, name) {
          var b :| b in blocks[..n] && b.text == t;
          assert b in blocks;
        } else {
          assert blocks[n] in blocks && blocks[n].text == t;
        }
      }
    }
  }

  /**
   The text of a document is its blocks with a blank line between any two, and a section is the
   texts under its headings with a line break between any two; nothing is trimmed away from them.
   */
  lemma DocumentIsJoined(value: Json, maxNodes: int, maxCharacters: int, fold: string -> string)
    requires Parsed(value, maxNodes, maxCharacters, fold).Ok?
    ensures
      var document := Parsed(value, maxNodes, maxCharacters, fold).value;
      var blocks := Blocks(Children(value));
      && document.text == Join(Texts(blocks), "\n\n")
      && document.sections.Keys == HeadingNames(blocks, fold)
      && forall name | name in document.sections :: document.sections[name] == Join(Parts(blocks, fold, name), "\n")
  {
    hide Blocks, Join, Strip, Parts, Trimmed, AllFit;
    var blocks := Blocks(Children(value));
    BlocksAreTrimmed(Children(value));
    JoinedIsTrimmed(Texts(blocks), "\n\n");
    forall name | name in HeadingNames(blocks, fold)
      ensures Strip(Join(Parts(blocks, fold, name), "\n")) == Join(Parts(blocks, fold, name), "\n")
    {
      PartsAreBlocks(blocks, fold, name);
      JoinedIsTrimmed(Parts(blocks, fold, name), "\n");
    }
  }

  // ---------------------------------------------------------------- one document

  function Container(name: string, children: seq<Json>): Json {
    JObj(map["type" := JStr(name), "content" := JArr(children)])
  }

  /** The node says this, and costs no more than this. */
  predicate Says(j: Json, text: string, nodes: nat, characters: nat, height: nat) {
    && WellFormed(j) && Rendering(j) == text
    && Nodes(j) == nodes && Characters(j) == characters && Height(j) == height
  }

  predicate AllSay(js: seq<Json>, text: string, nodes: nat, characters: nat, height: nat) {
    && AllWellFormed(js) && AllRenderings(js) == text
    && AllNodes(js) == nodes && AllCharacters(js) == characters && AllHeights(js) == height
  }

  lemma TextSays(text: string)
    ensures Says(TextNode(text), text, 1, |text|, 0)
  {
    LeavesAreOk(text);
  }

  lemma BreakSays()
    ensures Says(HARD_BREAK, "\n", 1, 0, 0)
  {
    LeavesAreOk("");
  }

  lemma OneSays(j: Json, text: string, nodes: nat, characters: nat, height: nat)
    requires Says(j, text, nodes, characters, height)
    ensures AllSay([j], text, nodes, characters, height)
  {
    NothingMeasures();
    MoreSay([], j, "", 0, 0, 0, text, nodes, characters, height);
    assert [] + [j] == [j] && "" + text == text;
  }

  lemma MoreSay(
    js: seq<Json>, j: Json, said: string, n: nat, c: nat, h: nat, text: string, nodes: nat, characters: nat, height: nat)
    requires AllSay(js, said, n, c, h) && Says(j, text, nodes, characters, height)
    ensures AllSay(js + [j], said + text, n + nodes, c + characters, Max(h, height))
  {
    hide WellFormed, Rendering, Nodes, Characters, Height;
    assert (js + [j])[..|js|] == js;
  }

  /** The kinds of node that end a line, and how any kind of container is rendered. */
  lemma ContainerSays(
    name: string, children: seq<Json>, text: string, nodes: nat, characters: nat, height: nat)
    requires name != "text" && name != "hardBreak" && children != [] && AllSay(children, text, nodes, characters, height)
    ensures
      Says(
        Container(name, children),
        if name in ["paragraph", "heading", "blockquote", "codeBlock", "listItem"] then Strip(text) + "\n" else text,
        1 + nodes, characters, 1 + height)
  {
    hide AllWellFormed, AllRenderings, AllNodes, AllCharacters, AllHeights, Strip;
    assert |"type"| == 4 && |"content"| == 7;
    var j := Container(name, children);
    assert j.fields["type"] == JStr(name) && j.fields["content"] == JArr(children);
    assert !IsLeaf(j) && Children(j) == children;
  }

  /** A line of plain text in a container of its own. */
  lemma LineSays(name: string, text: string)
    requires name in ["paragraph", "heading", "blockquote", "codeBlock", "listItem"] && text != "" && Trimmed(text)
    ensures Says(Container(name, [TextNode(text)]), text + "\n", 2, |text|, 1)
  {
    hide Says, AllSay, IsSpace, Container, TextNode;
    NamesAreLong();
    TextSays(text);
    OneSays(TextNode(text), text, 1, |text|, 0);
    ContainerSays(name, [TextNode(text)], text, 1, |text|, 0);
    StripOfTrimmed(text);
  }

  lemma NamesAreLong()
    ensures forall name | name in ["paragraph", "heading", "blockquote", "codeBlock", "listItem"] ::
              name != "text" && name != "hardBreak"
  {
    assert |"text"| == 4 && |"hardBreak"| == 9 && "paragraph"[0] == 'p' && "codeBlock"[0] == 'c';
    assert |"heading"| == 7 && |"blockquote"| == 10 && |"listItem"| == 8 && "hardBreak"[0] == 'h';
  }

  function Line(name: string, text: string): Json {
    Container(name, [TextNode(text)])
  }

  function BulletList(): Json {
    Container("bulletList", [Line("listItem", "p"), Line("listItem", "q")])
  }

  function BrokenLine(): Json {
    Container("paragraph", [TextNode("u"), HARD_BREAK, TextNode("v")])
  }

  function Panel(): Json {
    Container("panel", [Line("blockquote", "s"), Line("codeBlock", "t")])
  }

  /** Three headings, two of them alike, with lines, a list, a broken line and a panel between them. */
  function ExampleNodes(): seq<Json> {
    [Line("heading", "A"), Line("paragraph", "x"), BulletList(), Line("heading", "B"), BrokenLine(),
     Line("heading", "A"), Panel()]
  }

  function ExampleDocument(): Json {
    JObj(map["type" := JStr("doc"), "version" := JNum(1.0), "content" := JArr(ExampleNodes())])
  }

  lemma PairSays(
    outer: string, name: string, other: string, a: string, b: string)
    requires outer in ["bulletList", "panel"]
    requires name in ["paragraph", "heading", "blockquote", "codeBlock", "listItem"] && a != "" && Trimmed(a)
    requires other in ["paragraph", "heading", "blockquote", "codeBlock", "listItem"] && b != "" && Trimmed(b)
    ensures Says(Container(outer, [Line(name, a), Line(other, b)]), (a + "\n") + (b + "\n"), 5, |a| + |b|, 2)
  {
    hide Says, AllSay, IsSpace, Container, TextNode;
    LineSays(name, a);
    LineSays(other, b);
    OneSays(Line(name, a), a + "\n", 2, |a|, 1);
    MoreSay([Line(name, a)], Line(other, b), a + "\n", 2, |a|, 1, b + "\n", 2, |b|, 1);
    assert [Line(name, a)] + [Line(other, b)] == [Line(name, a), Line(other, b)];
    assert |"bulletList"| == 10 && |"panel"| == 5 && |"text"| == 4 && |"hardBreak"| == 9;
    assert |"paragraph"| == 9 && |"heading"| == 7 && |"blockquote"| == 10 && |"codeBlock"| == 9 && |"listItem"| == 8;
    assert "bulletList"[1] == 'u' && "blockquote"[1] == 'l';
    ContainerSays(outer, [Line(name, a), Line(other, b)], (a + "\n") + (b + "\n"), 4, |a| + |b|, 1);
  }

  lemma BrokenSays()
    ensures Says(BrokenLine(), "u\nv\n", 4, 2, 1)
  {
    hide Says, AllSay, Container, TextNode;
    TextSays("u");
    TextSays("v");
    BreakSays();
    NamesAreLong();
    OneSays(TextNode("u"), "u", 1, 1, 0);
    MoreSay([TextNode("u")], HARD_BREAK, "u", 1, 1, 0, "\n", 1, 0, 0);
    assert [TextNode("u")] + [HARD_BREAK] == [TextNode("u"), HARD_BREAK];
    MoreSay([TextNode("u"), HARD_BREAK], TextNode("v"), "u" + "\n", 2, 1, 0, "v", 1, 1, 0);
    var line := [TextNode("u"), HARD_BREAK, TextNode("v")];
    assert [TextNode("u"), HARD_BREAK] + [TextNode("v")] == line;
    assert ("u" + "\n") + "v" == "u\nv" && "u\nv" + "\n" == "u\nv\n";
    ContainerSays("paragraph", line, "u\nv", 3, 2, 0);
    StripOfTrimmed("u\nv");
  }

  /** A document that grows by a node that says something gains a block. */
  lemma BlocksAppend(nodes: seq<Json>, blocks: seq<Block>, j: Json, text: string, heading: bool)
    requires Blocks(nodes) == blocks && Rendering(j) == text + "\n" && text != "" && Trimmed(text)
    requires heading == IsType(j, "heading")
    ensures Blocks(nodes + [j]) == blocks + [Block(text, heading)]
  {
    hide Rendering, Strip, IsSpace, IsType;
    StripOfTrimmed(text);
    assert (nodes + [j])[..|nodes|] == nodes;
  }

  function ExampleBlocks(): seq<Block> {
    [Block("A", true), Block("x", false), Block("p\nq", false), Block("B", true), Block("u\nv", false),
     Block("A", true), Block("s\nt", false)]
  }

  lemma TypesOfNodes()
    ensures forall text :: IsType(Line("heading", text), "heading") && !IsType(Line("paragraph", text), "heading")
    ensures !IsType(BulletList(), "heading") && !IsType(BrokenLine(), "heading") && !IsType(Panel(), "heading")
  {
    assert |"heading"| == 7 && |"paragraph"| == 9 && |"bulletList"| == 10 && |"panel"| == 5;
    assert |"type"| == 4 && |"content"| == 7;
  }

  /** What each node of the example says. */
  lemma NodesSay()
    ensures Says(Line("heading", "A"), "A" + "\n", 2, 1, 1) && Says(Line("heading", "B"), "B" + "\n", 2, 1, 1)
    ensures Says(Line("paragraph", "x"), "x" + "\n", 2, 1, 1)
    ensures Says(BulletList(), "p\nq" + "\n", 5, 2, 2)
    ensures Says(BrokenLine(), "u\nv" + "\n", 4, 2, 1)
    ensures Says(Panel(), "s\nt" + "\n", 5, 2, 2)
  {
    hide Says, Container, TextNode;
    LineSays("heading", "A");
    LineSays("heading", "B");
    LineSays("paragraph", "x");
    PairSays("bulletList", "listItem", "listItem", "p", "q");
    PairSays("panel", "blockquote", "codeBlock", "s", "t");
    BrokenSays();
    assert ("p" + "\n") + ("q" + "\n") == "p\nq" + "\n" && ("s" + "\n") + ("t" + "\n") == "s\nt" + "\n";
    assert "u\nv" + "\n" == "u\nv\n";
  }

  lemma ExampleIsBlocks()
    ensures Blocks(ExampleNodes()) == ExampleBlocks()
  {
    hide Rendering, Line, BulletList, BrokenLine, Panel, IsType, Blocks, WellFormed, Nodes, Characters, Height;
    NodesSay();
    TypesOfNodes();
    NoBlocks();
    var n, b := ExampleNodes(), ExampleBlocks();
    BlocksAppend([], [], n[0], "A", true);
    assert [] + [n[0]] == n[..1] && [] + [b[0]] == b[..1];
    BlocksAppend(n[..1], b[..1], n[1], "x", false);
    assert n[..1] + [n[1]] == n[..2] && b[..1] + [b[1]] == b[..2];
    BlocksAppend(n[..2], b[..2], n[2], "p\nq", false);
    assert n[..2] + [n[2]] == n[..3] && b[..2] + [b[2]] == b[..3];
    BlocksAppend(n[..3], b[..3], n[3], "B", true);
    assert n[..3] + [n[3]] == n[..4] && b[..3] + [b[3]] == b[..4];
    BlocksAppend(n[..4], b[..4], n[4], "u\nv", false);
    assert n[..4] + [n[4]] == n[..5] && b[..4] + [b[4]] == b[..5];
    BlocksAppend(n[..5], b[..5], n[5], "A", true);
    assert n[..5] + [n[5]] == n[..6] && b[..5] + [b[5]] == b[..6];
    BlocksAppend(n[..6], b[..6], n[6], "s\nt", false);
    assert n[..6] + [n[6]] == n && b[..6] + [b[6]] == b;
  }

  lemma NoBlocks()
    ensures Blocks([]) == []
  {
  }

  /** What the example costs. */
  ghost predicate Costs(js: seq<Json>, nodes: nat, characters: nat, height: nat) {
    exists text :: AllSay(js, text, nodes, characters, height)
  }

  lemma CostsMore(js: seq<Json>, j: Json, n: nat, c: nat, h: nat, text: string, nodes: nat, characters: nat, height: nat)
    requires Costs(js, n, c, h) && Says(j, text, nodes, characters, height)
    ensures Costs(js + [j], n + nodes, c + characters, Max(h, height))
  {
    hide AllSay, Says;
    var said :| AllSay(js, said, n, c, h);
    MoreSay(js, j, said, n, c, h, text, nodes, characters, height);
  }

  lemma ExampleCosts()
    ensures AllFit(ExampleNodes(), 1, 22, 10) && !AllFit(ExampleNodes(), 1, 21, 10) && !AllFit(ExampleNodes(), 1, 22, 9)
  {
    hide AllSay, Says, Line, BulletList, BrokenLine, Panel, AllFit;
    NodesSay();
    var n := ExampleNodes();
    NothingMeasures();
    NothingSaid();
    CostsMore([], n[0], 0, 0, 0, "A" + "\n", 2, 1, 1);
    assert [] + [n[0]] == n[..1];
    CostsMore(n[..1], n[1], 2, 1, 1, "x" + "\n", 2, 1, 1);
    assert n[..1] + [n[1]] == n[..2];
    CostsMore(n[..2], n[2], 4, 2, 1, "p\nq" + "\n", 5, 2, 2);
    assert n[..2] + [n[2]] == n[..3];
    CostsMore(n[..3], n[3], 9, 4, 2, "B" + "\n", 2, 1, 1);
    assert n[..3] + [n[3]] == n[..4];
    CostsMore(n[..4], n[4], 11, 5, 2, "u\nv" + "\n", 4, 2, 1);
    assert n[..4] + [n[4]] == n[..5];
    CostsMore(n[..5], n[5], 15, 7, 2, "A" + "\n", 2, 1, 1);
    assert n[..5] + [n[5]] == n[..6];
    CostsMore(n[..6], n[6], 17, 8, 2, "s\nt" + "\n", 5, 2, 2);
    assert n[..6] + [n[6]] == n;
    CostsFit(n, 22, 10, 2);
  }

  lemma NothingSaid()
    ensures AllSay([], "", 0, 0, 0)
  {
  }

  lemma CostsFit(js: seq<Json>, nodes: nat, characters: nat, height: nat)
    requires Costs(js, nodes, characters, height) && height < MAX_DEPTH
    ensures forall n: int, c: int :: AllFit(js, 1, n, c) <==> nodes <= n && characters <= c
  {
  }

  /** One more block: where it goes. */
  lemma PartsAppend(
    blocks: seq<Block>, b: Block, fold: string -> string, name: string, parts: seq<string>, heading: Option<string>)
    requires Parts(blocks, fold, name) == parts && NearestHeading(blocks) == heading
    ensures Parts(blocks + [b], fold, name)
         == parts + if !b.heading && heading.Some? && fold(heading.value) == name then [b.text] else []
    ensures NearestHeading(blocks + [b]) == if b.heading then Some(b.text) else heading
  {
    assert (blocks + [b])[..|blocks|] == blocks;
  }

  lemma ExampleParts(fold: string -> string, name: string)
    ensures Parts(ExampleBlocks(), fold, name)
         == (if fold("A") == name then ["x", "p\nq"] else []) + (if fold("B") == name then ["u\nv"] else [])
            + if fold("A") == name then ["s\nt"] else []
  {
    var b := ExampleBlocks();
    assert Parts([], fold, name) == [] && NearestHeading([]) == None;
    hide Parts, NearestHeading;
    PartsAppend([], b[0], fold, name, [], None);
    assert [] + [b[0]] == b[..1];
    PartsAppend(b[..1], b[1], fold, name, [], Some("A"));
    assert b[..1] + [b[1]] == b[..2];
    PartsAppend(b[..2], b[2], fold, name, if fold("A") == name then ["x"] else [], Some("A"));
    assert b[..2] + [b[2]] == b[..3];
    var first := if fold("A") == name then ["x", "p\nq"] else [];
    assert (if fold("A") == name then ["x"] else []) + (if fold("A") == name then ["p\nq"] else []) == first;
    PartsAppend(b[..3], b[3], fold, name, first, Some("A"));
    assert b[..3] + [b[3]] == b[..4];
    PartsAppend(b[..4], b[4], fold, name, first, Some("B"));
    assert b[..4] + [b[4]] == b[..5];
    var second := first + if fold("B") == name then ["u\nv"] else [];
    PartsAppend(b[..5], b[5], fold, name, second, Some("B"));
    assert b[..5] + [b[5]] == b[..6];
    PartsAppend(b[..6], b[6], fold, name, second, Some("A"));
    assert b[..6] + [b[6]] == b;
  }

  lemma ExampleNames(fold: string -> string)
    ensures HeadingNames(ExampleBlocks(), fold) == {fold("A"), fold("B")}
  {
    var b := ExampleBlocks();
    assert b[0].heading && b[3].heading && b[5].heading;
    assert forall i | 0 <= i < |b| && b[i].heading :: i == 0 || i == 3 || i == 5;
    assert fold(b[0].text) in HeadingNames(b, fold) && fold(b[3].text) in HeadingNames(b, fold);
  }

  lemma JoinFirst(first: string, rest: seq<string>, separator: string)
    requires rest != []
    ensures Join([first] + rest, separator) == first + separator + Join(rest, separator)
  {
    assert ([first] + rest)[1..] == rest;
  }

  lemma ExampleTail()
    ensures Join(["B", "u\nv", "A", "s\nt"], "\n\n") == "B\n\nu\nv\n\nA\n\ns\nt"
  {
    JoinFirst("A", ["s\nt"], "\n\n");
    assert ["A"] + ["s\nt"] == ["A", "s\nt"] && Join(["s\nt"], "\n\n") == "s\nt";
    JoinFirst("u\nv", ["A", "s\nt"], "\n\n");
    assert ["u\nv"] + ["A", "s\nt"] == ["u\nv", "A", "s\nt"];
    JoinFirst("B", ["u\nv", "A", "s\nt"], "\n\n");
    assert ["B"] + ["u\nv", "A", "s\nt"] == ["B", "u\nv", "A", "s\nt"];
    hide Join;
    assert "B" + "\n\n" + ("u\nv" + "\n\n" + ("A" + "\n\n" + "s\nt")) == "B\n\nu\nv\n\nA\n\ns\nt";
  }

  lemma ExampleText()
    ensures Join(Texts(ExampleBlocks()), "\n\n") == "A\n\nx\n\np\nq\n\nB\n\nu\nv\n\nA\n\ns\nt"
  {
    hide Join;
    var tail := ["B", "u\nv", "A", "s\nt"];
    assert Texts(ExampleBlocks()) == ["A", "x", "p\nq", "B", "u\nv", "A", "s\nt"];
    ExampleTail();
    JoinFirst("p\nq", tail, "\n\n");
    JoinFirst("x", ["p\nq"] + tail, "\n\n");
    JoinFirst("A", ["x"] + (["p\nq"] + tail), "\n\n");
    assert ["A"] + (["x"] + (["p\nq"] + tail)) == ["A", "x", "p\nq", "B", "u\nv", "A", "s\nt"];
    var rest := "B\n\nu\nv\n\nA\n\ns\nt";
    assert "A" + "\n\n" + ("x" + "\n\n" + ("p\nq" + "\n\n" + rest)) == "A\n\nx\n\np\nq\n\n" + rest;
    assert "A\n\nx\n\np\nq\n\n" + rest == "A\n\nx\n\np\nq\n\nB\n\nu\nv\n\nA\n\ns\nt";
  }

  lemma DocumentShape(nodes: seq<Json>)
    ensures
      var value := JObj(map["type" := JStr("doc"), "version" := JNum(1.0), "content" := JArr(nodes)]);
      IsDocument(value) && ContentOk(value) && Children(value) == nodes
  {
    assert |"type"| == 4 && |"version"| == 7 && |"content"| == 7 && "version"[0] == 'v' && |"doc"| == 3 && |"text"| == 4;
  }

  lemma JoinThree(a: string, b: string, c: string)
    ensures Join([a, b, c], "\n") == a + "\n" + (b + "\n" + c) && Join([a], "\n") == a
  {
    JoinFirst(b, [c], "\n");
    JoinFirst(a, [b, c], "\n");
    assert [b] + [c] == [b, c] && [a] + [b, c] == [a, b, c] && Join([c], "\n") == c;
  }

  /**
   The example is read, with just enough nodes and characters, as seven blocks between blank lines
   and as two sections: a heading that comes twice collects what follows both.
   */
  lemma ExampleIsRead(fold: string -> string)
    requires fold("A") != fold("B")
    ensures Parsed(ExampleDocument(), 23, 10, fold) == Ok(AdfDocument(
              "A\n\nx\n\np\nq\n\nB\n\nu\nv\n\nA\n\ns\nt",
              map[fold("A") := "x\np\nq\ns\nt", fold("B") := "u\nv"]))
    ensures Parsed(ExampleDocument(), 22, 10, fold) == Parsed(ExampleDocument(), 23, 9, fold) == Err(ParseFault)
  {
    hide AllFit, Blocks, Join, Strip, Parts, Trimmed, ExampleNodes, HeadingNames, ExampleBlocks, IsDocument, Texts;
    DocumentShape(ExampleNodes());
    ExampleCosts();
    ExampleIsBlocks();
    DocumentIsJoined(ExampleDocument(), 23, 10, fold);
    ExampleNames(fold);
    ExampleText();
    ExampleParts(fold, fold("A"));
    ExampleParts(fold, fold("B"));
    JoinThree("x", "p\nq", "s\nt");
    JoinThree("u\nv", "", "");
    assert ["x", "p\nq"] + [] + ["s\nt"] == ["x", "p\nq", "s\nt"] && [] + ["u\nv"] + [] == ["u\nv"];
    assert "x" + "\n" + ("p\nq" + "\n" + "s\nt") == "x\np\nq\ns\nt";
    var sections := Parsed(ExampleDocument(), 23, 10, fold).value.sections;
    assert sections.Keys == {fold("A"), fold("B")};
    assert sections[fold("A")] == "x\np\nq\ns\nt" && sections[fold("B")] == "u\nv";
    assert sections == map[fold("A") := "x\np\nq\ns\nt", fold("B") := "u\nv"];
  }
}
