/**
 Atlassian Document Format: a recursive reader that spends a mutable budget, and the printer
 that it undoes. The reader is proved against an unbudgeted rendering of the same tree.
 */
module JiraAdf {
  import opened Wrappers
  import opened Text
  import opened JsonValues

  datatype AdfFault = ParseFault | LimitFault | TextFault

  const MAX_DEPTH := 32
  const MAX_COMMENT := 10_000

  // ---------------------------------------------------------------- the tree, without limits

  predicate IsType(j: Json, name: string) {
    j.JObj? && Get(j.fields, "type") == Some(JStr(name))
  }

  predicate IsLeaf(j: Json) {
    IsType(j, "text") || IsType(j, "hardBreak")
  }

  /** Nodes that end a line, whatever white space is around their text. */
  predicate IsLine(j: Json) {
    || IsType(j, "paragraph") || IsType(j, "heading") || IsType(j, "blockquote") || IsType(j, "codeBlock")
    || IsType(j, "listItem")
  }

  /** The child nodes; a leaf has none, and so has a node without an array of them. */
  function Children(j: Json): (r: seq<Json>)
    ensures forall c | c in r :: j decreases to c
    ensures r != [] ==> (j decreases to r)
  {
    if j.JObj? && !IsLeaf(j) && "content" in j.fields && j.fields["content"].JArr? then j.fields["content"].items else []
  }

  predicate ContentOk(j: Json)
    requires j.JObj?
  {
    "content" in j.fields ==> j.fields["content"].JArr?
  }

  predicate WellFormed(j: Json) {
    && j.JObj?
    && "type" in j.fields && j.fields["type"].JStr?
    && (IsType(j, "text") ==> "text" in j.fields && j.fields["text"].JStr?)
    && (!IsLeaf(j) ==> ContentOk(j))
    && (Children(j) != [] ==> AllWellFormed(Children(j)))
  }

  predicate AllWellFormed(nodes: seq<Json>) {
    nodes == [] || (AllWellFormed(nodes[..|nodes| - 1]) && WellFormed(nodes[|nodes| - 1]))
  }

  function Nodes(j: Json): nat {
    1 + if Children(j) == [] then 0 else AllNodes(Children(j))
  }

  function AllNodes(nodes: seq<Json>): nat {
    if nodes == [] then 0 else AllNodes(nodes[..|nodes| - 1]) + Nodes(nodes[|nodes| - 1])
  }

  function OwnText(j: Json): string {
    if IsType(j, "text") && "text" in j.fields && j.fields["text"].JStr? then j.fields["text"].text else ""
  }

  function Characters(j: Json): nat {
    |OwnText(j)| + if Children(j) == [] then 0 else AllCharacters(Children(j))
  }

  function AllCharacters(nodes: seq<Json>): nat {
    if nodes == [] then 0 else AllCharacters(nodes[..|nodes| - 1]) + Characters(nodes[|nodes| - 1])
  }

  function Max(a: nat, b: nat): nat {
    if a < b then b else a
  }

  /** The number of levels below a node. */
  function Height(j: Json): nat {
    if Children(j) == [] then 0 else 1 + AllHeights(Children(j))
  }

  function AllHeights(nodes: seq<Json>): nat {
    if nodes == [] then 0 else Max(AllHeights(nodes[..|nodes| - 1]), Height(nodes[|nodes| - 1]))
  }

  /** What a tree says, with no limits. */
  function Rendering(j: Json): string {
    if IsType(j, "text") then OwnText(j)
    else if IsType(j, "hardBreak") then "\n"
    else
      var inner := if Children(j) == [] then "" else AllRenderings(Children(j));
      if IsLine(j) then Strip(inner) + "\n" else inner
  }

  function AllRenderings(nodes: seq<Json>): string {
    if nodes == [] then "" else AllRenderings(nodes[..|nodes| - 1]) + Rendering(nodes[|nodes| - 1])
  }

  lemma {:induction false} AllWellFormedAt(nodes: seq<Json>, i: nat)
    requires i <= |nodes| && AllWellFormed(nodes)
    ensures AllWellFormed(nodes[..i]) && (i < |nodes| ==> WellFormed(nodes[i]))
    decreases |nodes|
  {
    if i < |nodes| {
      assert nodes[..|nodes| - 1][..i] == nodes[..i];
      AllWellFormedAt(nodes[..|nodes| - 1], i);
    } else {
      assert nodes[..i] == nodes;
    }
  }

  /** The measures of a list grow with it. */
  lemma {:induction false} MeasuresGrow(nodes: seq<Json>, i: nat)
    requires i <= |nodes|
    ensures AllNodes(nodes[..i]) <= AllNodes(nodes)
    ensures AllCharacters(nodes[..i]) <= AllCharacters(nodes)
    ensures AllHeights(nodes[..i]) <= AllHeights(nodes)
    decreases |nodes|
  {
    if i < |nodes| {
      assert nodes[..|nodes| - 1][..i] == nodes[..i];
      MeasuresGrow(nodes[..|nodes| - 1], i);
    } else {
      assert nodes[..i] == nodes;
    }
  }

  lemma MeasuresStep(nodes: seq<Json>, i: nat)
    requires i < |nodes|
    ensures AllNodes(nodes[..i + 1]) == AllNodes(nodes[..i]) + Nodes(nodes[i])
    ensures AllCharacters(nodes[..i + 1]) == AllCharacters(nodes[..i]) + Characters(nodes[i])
    ensures AllHeights(nodes[..i + 1]) == Max(AllHeights(nodes[..i]), Height(nodes[i]))
    ensures AllRenderings(nodes[..i + 1]) == AllRenderings(nodes[..i]) + Rendering(nodes[i])
    ensures AllWellFormed(nodes[..i + 1]) <==> AllWellFormed(nodes[..i]) && WellFormed(nodes[i])
  {
    assert nodes[..i + 1][..i] == nodes[..i];
  }

  // ---------------------------------------------------------------- the reader

  class Budget {
    var nodesLeft: int
    var charactersLeft: int

    constructor (nodesLeft: int, charactersLeft: int)
      ensures this.nodesLeft == nodesLeft && this.charactersLeft == charactersLeft
    {
      this.nodesLeft := nodesLeft;
      this.charactersLeft := charactersLeft;
    }

    method ConsumeNode() returns (ok: bool)
      modifies this
      ensures nodesLeft == old(nodesLeft) - 1 && charactersLeft == old(charactersLeft)
      ensures ok <==> nodesLeft >= 0
    {
      nodesLeft := nodesLeft - 1;
      ok := nodesLeft >= 0;
    }

    method ConsumeText(value: string) returns (ok: bool)
      modifies this
      ensures charactersLeft == old(charactersLeft) - |value| && nodesLeft == old(nodesLeft)
      ensures ok <==> charactersLeft >= 0
    {
      charactersLeft := charactersLeft - |value|;
      ok := charactersLeft >= 0;
    }
  }

  /** A tree that fits: its shape, its depth, and what it costs. */
  predicate Fits(j: Json, depth: nat, nodesLeft: int, charactersLeft: int) {
    && WellFormed(j)
    && depth + Height(j) <= MAX_DEPTH
    && Nodes(j) <= nodesLeft
    && Characters(j) <= charactersLeft
  }

  predicate AllFit(nodes: seq<Json>, depth: nat, nodesLeft: int, charactersLeft: int) {
    && AllWellFormed(nodes)
    && (nodes != [] ==> depth + AllHeights(nodes) <= MAX_DEPTH)
    && AllNodes(nodes) <= nodesLeft
    && AllCharacters(nodes) <= charactersLeft
  }

  lemma AllFitStep(nodes: seq<Json>, i: nat, depth: nat, nodesLeft: int, charactersLeft: int)
    requires i < |nodes|
    ensures AllFit(nodes[..i + 1], depth, nodesLeft, charactersLeft) <==>
            && AllFit(nodes[..i], depth, nodesLeft, charactersLeft)
            && Fits(nodes[i], depth, nodesLeft - AllNodes(nodes[..i]), charactersLeft - AllCharacters(nodes[..i]))
  {
    MeasuresStep(nodes, i);
  }

  lemma AllFitPrefix(nodes: seq<Json>, i: nat, depth: nat, nodesLeft: int, charactersLeft: int)
    requires i <= |nodes| && AllFit(nodes, depth, nodesLeft, charactersLeft)
    ensures AllFit(nodes[..i], depth, nodesLeft, charactersLeft)
  {
    AllWellFormedAt(nodes, i);
    MeasuresGrow(nodes, i);
  }

  lemma FitsBelow(j: Json, depth: nat, nodesLeft: int, charactersLeft: int)
    requires j.JObj? && "type" in j.fields && j.fields["type"].JStr? && !IsLeaf(j) && ContentOk(j)
    ensures Fits(j, depth, nodesLeft, charactersLeft) <==>
            depth <= MAX_DEPTH && nodesLeft >= 1 && AllFit(Children(j), depth + 1, nodesLeft - 1, charactersLeft)
    ensures Nodes(j) == 1 + AllNodes(Children(j)) && Characters(j) == AllCharacters(Children(j))
    ensures Rendering(j) ==
            if IsLine(j) then Strip(AllRenderings(Children(j))) + "\n" else AllRenderings(Children(j))
  {
  }

  /**
   Reads one node and everything below it. It succeeds exactly when the tree fits, then returns
   the unbudgeted rendering, and has spent exactly what the tree costs.
   */
  method Render(node: Json, budget: Budget, depth: nat) returns (r: Result<string, AdfFault>)
    requires budget.nodesLeft >= 0 && budget.charactersLeft >= 0
    modifies budget
    ensures r == if Fits(node, depth, old(budget.nodesLeft), old(budget.charactersLeft))
                 then Ok(Rendering(node)) else Err(ParseFault)
    ensures r.Ok? ==>
              && budget.nodesLeft == old(budget.nodesLeft) - Nodes(node) >= 0
              && budget.charactersLeft == old(budget.charactersLeft) - Characters(node) >= 0
    decreases node, 1
  {
    if depth > MAX_DEPTH || !node.JObj? {
      return Err(ParseFault);
    }
    var spent := budget.ConsumeNode();
    if !spent || Get(node.fields, "type").None? || !node.fields["type"].JStr? {
      return Err(ParseFault);
    }
    if IsType(node, "text") {
      if Get(node.fields, "text").None? || !node.fields["text"].JStr? {
        return Err(ParseFault);
      }
      var taken := budget.ConsumeText(node.fields["text"].text);
      if !taken {
        return Err(ParseFault);
      }
      return Ok(node.fields["text"].text);
    }
    if IsType(node, "hardBreak") {
      return Ok("\n");
    }
    if !ContentOk(node) {
      return Err(ParseFault);
    }
    FitsBelow(node, depth, old(budget.nodesLeft), old(budget.charactersLeft));
    if Children(node) == [] {
      NothingMeasures();
      assert Strip("") + "\n" == "\n";
      return Ok(if IsLine(node) then "\n" else "");
    }
    var rendered := RenderChildren(Children(node), budget, depth + 1);
    if rendered.Err? {
      return Err(ParseFault);
    }
    return Ok(if IsLine(node) then Strip(rendered.value) + "\n" else rendered.value);
  }

  method RenderChildren(nodes: seq<Json>, budget: Budget, depth: nat) returns (r: Result<string, AdfFault>)
    requires budget.nodesLeft >= 0 && budget.charactersLeft >= 0
    modifies budget
    ensures r == if AllFit(nodes, depth, old(budget.nodesLeft), old(budget.charactersLeft))
                 then Ok(AllRenderings(nodes)) else Err(ParseFault)
    ensures r.Ok? ==>
              && budget.nodesLeft == old(budget.nodesLeft) - AllNodes(nodes) >= 0
              && budget.charactersLeft == old(budget.charactersLeft) - AllCharacters(nodes) >= 0
    decreases nodes, 0
  {
    var rendered := "";
    var i := 0;
    ghost var nodesLeft, charactersLeft := budget.nodesLeft, budget.charactersLeft;
    assert nodes[..0] == [] && AllFit([], depth, nodesLeft, charactersLeft);
    assert AllRenderings([]) == "" && AllNodes([]) == 0 && AllCharacters([]) == 0;
    hide Rendering, AllRenderings, Nodes, Characters, AllNodes, AllCharacters, AllFit, Fits;
    while i < |nodes|
      invariant 0 <= i <= |nodes|
      invariant AllFit(nodes[..i], depth, nodesLeft, charactersLeft)
      invariant rendered == AllRenderings(nodes[..i])
      invariant budget.nodesLeft == nodesLeft - AllNodes(nodes[..i]) >= 0
      invariant budget.charactersLeft == charactersLeft - AllCharacters(nodes[..i]) >= 0
    {
      AllFitStep(nodes, i, depth, nodesLeft, charactersLeft);
      MeasuresStep(nodes, i);
      ghost var fits := Fits(nodes[i], depth, budget.nodesLeft, budget.charactersLeft);
      assert AllFit(nodes[..i + 1], depth, nodesLeft, charactersLeft) == fits;
      var part := Render(nodes[i], budget, depth);
      assert part.Ok? == fits;
      if part.Err? {
        if AllFit(nodes, depth, nodesLeft, charactersLeft) {
          AllFitPrefix(nodes, i + 1, depth, nodesLeft, charactersLeft);
        }
        return Err(ParseFault);
      }
      rendered := rendered + part.value;
      i := i + 1;
    }
    assert nodes[..i] == nodes;
    return Ok(rendered);
  }

  // ---------------------------------------------------------------- documents and sections

  datatype AdfDocument = AdfDocument(text: string, sections: map<string, string>)

  /** A top-level node that says something: its trimmed rendering, and whether it is a heading. */
  datatype Block = Block(text: string, heading: bool)

  function Blocks(nodes: seq<Json>): seq<Block> {
    if nodes == [] then []
    else
      var last := nodes[|nodes| - 1];
      var text := Strip(Rendering(last));
      Blocks(nodes[..|nodes| - 1]) + if text == "" then [] else [Block(text, IsType(last, "heading"))]
  }

  function Texts(blocks: seq<Block>): (r: seq<string>)
    ensures |r| == |blocks|
    ensures forall i | 0 <= i < |r| :: r[i] == blocks[i].text
  {
    seq(|blocks|, i requires 0 <= i < |blocks| => blocks[i].text)
  }

  /** The heading nearest before the end. */
  function NearestHeading(blocks: seq<Block>): Option<string> {
    if blocks == [] then None
    else if blocks[|blocks| - 1].heading then Some(blocks[|blocks| - 1].text)
    else NearestHeading(blocks[..|blocks| - 1])
  }

  /** The block at `i` is text under the heading `name`. */
  predicate Under(blocks: seq<Block>, i: int, fold: string -> string, name: string)
    requires 0 <= i < |blocks|
  {
    && !blocks[i].heading
    && NearestHeading(blocks[..i]).Some?
    && fold(NearestHeading(blocks[..i]).value) == name
  }

  /** The texts under a heading, in order, those of all headings with that folded name together. */
  function Parts(blocks: seq<Block>, fold: string -> string, name: string): seq<string> {
    if blocks == [] then []
    else
      var n := |blocks| - 1;
      Parts(blocks[..n], fold, name) + if Under(blocks, n, fold, name) then [blocks[n].text] else []
  }

  function HeadingNames(blocks: seq<Block>, fold: string -> string): set<string> {
    set i | 0 <= i < |blocks| && blocks[i].heading :: fold(blocks[i].text)
  }

  function Sections(blocks: seq<Block>, fold: string -> string): map<string, string> {
    map name | name in HeadingNames(blocks, fold) :: Strip(Join(Parts(blocks, fold, name), "\n"))
  }

  /** Python compares `1`, `1.0` and `True` as equal. */
  predicate IsDocument(value: Json) {
    && IsType(value, "doc")
    && (Get(value.fields, "version") == Some(JNum(1.0)) || Get(value.fields, "version") == Some(JBool(true)))
  }

  function DocumentOf(value: Json, fold: string -> string): AdfDocument {
    var blocks := Blocks(Children(value));
    AdfDocument(Strip(Join(Texts(blocks), "\n\n")), Sections(blocks, fold))
  }

  /** What reading a document gives: decided by its shape, its depth and its total cost. */
  function Parsed(value: Json, maxNodes: int, maxCharacters: int, fold: string -> string): Result<AdfDocument, AdfFault> {
    if !IsDocument(value) then Err(ParseFault)
    else if maxNodes < 1 || maxCharacters < 1 then Err(LimitFault)
    else if ContentOk(value) && AllFit(Children(value), 1, maxNodes - 1, maxCharacters) then Ok(DocumentOf(value, fold))
    else Err(ParseFault)
  }

  lemma BlocksStep(nodes: seq<Json>, i: nat)
    requires i < |nodes|
    ensures
      var text := Strip(Rendering(nodes[i]));
      Blocks(nodes[..i + 1]) == Blocks(nodes[..i]) + if text == "" then [] else [Block(text, IsType(nodes[i], "heading"))]
  {
    assert nodes[..i + 1][..i] == nodes[..i];
  }

  /** The sections of the source's dictionary: a list for every heading name met so far. */
  predicate Collected(values: map<string, seq<string>>, blocks: seq<Block>, fold: string -> string) {
    && values.Keys == HeadingNames(blocks, fold)
    && forall name | name in values :: values[name] == Parts(blocks, fold, name)
  }

  lemma {:induction false} HeadingIsNamed(blocks: seq<Block>, fold: string -> string)
    ensures NearestHeading(blocks).Some? ==> fold(NearestHeading(blocks).value) in HeadingNames(blocks, fold)
  {
    if blocks != [] && !blocks[|blocks| - 1].heading {
      var front := blocks[..|blocks| - 1];
      HeadingIsNamed(front, fold);
      assert forall i | 0 <= i < |front| :: front[i] == blocks[i];
    }
  }

  /** Nothing stands under a heading that does not occur. */
  lemma {:induction false} NoParts(blocks: seq<Block>, fold: string -> string, name: string)
    requires name !in HeadingNames(blocks, fold)
    ensures Parts(blocks, fold, name) == []
  {
    if blocks != [] {
      var front := blocks[..|blocks| - 1];
      assert forall i | 0 <= i < |front| :: front[i] == blocks[i];
      HeadingIsNamed(front, fold);
      NoParts(front, fold, name);
    }
  }

  /** The loop's variables after some blocks: the texts, the sections, and the heading in force. */
  predicate Gathered(
    texts: seq<string>, values: map<string, seq<string>>, current: Option<string>, blocks: seq<Block>,
    fold: string -> string)
  {
    && texts == Texts(blocks)
    && Collected(values, blocks, fold)
    && current == match NearestHeading(blocks) case None => None case Some(heading) => Some(fold(heading))
  }

  lemma NamesGrow(blocks: seq<Block>, b: Block, fold: string -> string)
    ensures HeadingNames(blocks + [b], fold) == HeadingNames(blocks, fold) + if b.heading then {fold(b.text)} else {}
  {
    var all := blocks + [b];
    assert all[|blocks|] == b;
    assert forall i | 0 <= i < |blocks| :: all[i] == blocks[i];
  }

  lemma GatherHeading(
    texts: seq<string>, values: map<string, seq<string>>, current: Option<string>, blocks: seq<Block>,
    fold: string -> string, text: string)
    requires Gathered(texts, values, current, blocks, fold)
    ensures Gathered(
              texts + [text], if fold(text) in values then values else values[fold(text) := []], Some(fold(text)),
              blocks + [Block(text, true)], fold)
  {
    hide HeadingNames;
    var all := blocks + [Block(text, true)];
    assert all[..|blocks|] == blocks;
    NamesGrow(blocks, Block(text, true), fold);
    if fold(text) !in values {
      NoParts(blocks, fold, fold(text));
    }
  }

  lemma GatherText(
    texts: seq<string>, values: map<string, seq<string>>, current: Option<string>, blocks: seq<Block>,
    fold: string -> string, text: string)
    requires Gathered(texts, values, current, blocks, fold)
    ensures current.Some? ==> current.value in values
    ensures Gathered(
              texts + [text],
              if current.None? then values else values[current.value := values[current.value] + [text]], current,
              blocks + [Block(text, false)], fold)
  {
    hide HeadingNames;
    var all := blocks + [Block(text, false)];
    assert all[..|blocks|] == blocks;
    HeadingIsNamed(blocks, fold);
    NamesGrow(blocks, Block(text, false), fold);
  }

  function StripParts(values: map<string, seq<string>>): map<string, string> {
    map name | name in values :: Strip(Join(values[name], "\n"))
  }

  /** One block into the loop's variables. */
  method Gather(
    texts: seq<string>, values: map<string, seq<string>>, current: Option<string>, ghost blocks: seq<Block>,
    fold: string -> string, rendered: string, heading: bool)
    returns (texts': seq<string>, values': map<string, seq<string>>, current': Option<string>)
    requires Gathered(texts, values, current, blocks, fold)
    ensures Gathered(
              texts', values', current', blocks + if rendered == "" then [] else [Block(rendered, heading)], fold)
  {
    hide Gathered;
    texts', values', current' := texts, values, current;
    if rendered == "" {
      assert blocks + [] == blocks;
      return;
    }
    if heading {
      GatherHeading(texts, values, current, blocks, fold, rendered);
      current' := Some(fold(rendered));
      values' := if current'.value in values then values else values[current'.value := []];
    } else {
      GatherText(texts, values, current, blocks, fold, rendered);
      if current.Some? {
        values' := values[current.value := values[current.value] + [rendered]];
      }
    }
    texts' := texts + [rendered];
  }

  /** The loop of `ParseAdf`: reads the blocks one by one and sorts them under their headings. */
  method ReadBlocks(children: seq<Json>, maxNodes: nat, maxCharacters: nat, fold: string -> string)
    returns (r: Result<(seq<string>, map<string, seq<string>>), AdfFault>)
    ensures r.Ok? <==> AllFit(children, 1, maxNodes, maxCharacters)
    ensures r.Ok? ==> exists heading :: Gathered(r.value.0, r.value.1, heading, Blocks(children), fold)
    ensures r.Err? ==> r.error == ParseFault
  {
    var budget := new Budget(maxNodes, maxCharacters);
    var values: map<string, seq<string>> := map[];
    var current: Option<string> := None;
    var blocks: seq<string> := [];
    var i := 0;
    NothingGathered(fold);
    assert children[..0] == [];
    assert AllFit([], 1, maxNodes, maxCharacters) && AllNodes([]) == 0 && AllCharacters([]) == 0;
    hide Rendering, Strip, Nodes, Characters, AllNodes, AllCharacters;
    hide Gathered, Blocks, AllFit, Fits, IsType, Get;
    while i < |children|
      invariant 0 <= i <= |children|
      invariant AllFit(children[..i], 1, maxNodes, maxCharacters)
      invariant budget.nodesLeft == maxNodes - AllNodes(children[..i]) >= 0
      invariant budget.charactersLeft == maxCharacters - AllCharacters(children[..i]) >= 0
      invariant Gathered(blocks, values, current, Blocks(children[..i]), fold)
    {
      var child := children[i];
      ghost var before := Blocks(children[..i]);
      AllFitStep(children, i, 1, maxNodes, maxCharacters);
      MeasuresStep(children, i);
      BlocksStep(children, i);
      ghost var fits := Fits(child, 1, budget.nodesLeft, budget.charactersLeft);
      assert AllFit(children[..i + 1], 1, maxNodes, maxCharacters) == fits;
      var part := Render(child, budget, 1);
      assert part.Ok? == fits;
      if part.Err? {
        if AllFit(children, 1, maxNodes, maxCharacters) {
          AllFitPrefix(children, i + 1, 1, maxNodes, maxCharacters);
        }
        return Err(ParseFault);
      }
      blocks, values, current := Gather(
        blocks, values, current, before, fold, Strip(part.value), IsType(child, "heading"));
      i := i + 1;
    }
    assert children[..i] == children;
    return Ok((blocks, values));
  }

  /** Reads a whole document. */
  method ParseAdf(value: Json, maxNodes: int, maxCharacters: int, fold: string -> string)
    returns (r: Result<AdfDocument, AdfFault>)
    ensures r == Parsed(value, maxNodes, maxCharacters, fold)
  {
    if !IsDocument(value) {
      return Err(ParseFault);
    }
    if maxNodes < 1 || maxCharacters < 1 {
      return Err(LimitFault);
    }
    if !ContentOk(value) {
      return Err(ParseFault);
    }
    hide AllFit, Gathered, Blocks, Strip, Join, Sections, StripParts, Texts;
    var read := ReadBlocks(Children(value), maxNodes - 1, maxCharacters, fold);
    if read.Err? {
      return Err(ParseFault);
    }
    var (blocks, values) := read.value;
    ghost var current :| Gathered(blocks, values, current, Blocks(Children(value)), fold);
    SectionsAre(blocks, values, current, Blocks(Children(value)), fold);
    return Ok(AdfDocument(Strip(Join(blocks, "\n\n")), StripParts(values)));
  }

  lemma NothingGathered(fold: string -> string)
    ensures Gathered([], map[], None, Blocks([]), fold)
  {
  }

  lemma SectionsAre(
    texts: seq<string>, values: map<string, seq<string>>, current: Option<string>, blocks: seq<Block>,
    fold: string -> string)
    requires Gathered(texts, values, current, blocks, fold)
    ensures texts == Texts(blocks) && StripParts(values) == Sections(blocks, fold)
  {
  }

  predicate TextAt(blocks: seq<Block>, fold: string -> string, name: string, place: nat, text: string) {
    place < |blocks| && Under(blocks, place, fold, name) && blocks[place].text == text
  }

  predicate Ascending(places: seq<nat>, limit: nat) {
    && (forall k | 0 <= k < |places| :: places[k] < limit)
    && (forall j, k | 0 <= j < k < |places| :: places[j] < places[k])
  }

  /** A text is in a section exactly when its nearest heading bears that section's name. */
  lemma {:induction false} PartsAreUnder(blocks: seq<Block>, fold: string -> string, name: string)
    returns (places: seq<nat>)
    ensures Ascending(places, |blocks|) && |places| == |Parts(blocks, fold, name)|
    ensures forall k | 0 <= k < |places| :: TextAt(blocks, fold, name, places[k], Parts(blocks, fold, name)[k])
    ensures forall i | 0 <= i < |blocks| :: Under(blocks, i, fold, name) <==> i in places
  {
    hide Under, Ascending;
    places := [];
    if blocks == [] {
      assert Ascending(places, 0) by { NothingAscends(0); }
    } else {
      var n := |blocks| - 1;
      var front := blocks[..n];
      places := PartsAreUnder(front, fold, name);
      forall i | 0 <= i < n
        ensures Under(front, i, fold, name) == Under(blocks, i, fold, name)
      {
        UnderPrefix(blocks, n, i, fold, name);
      }
      AscendingGrows(places, n);
      if Under(blocks, n, fold, name) {
        places := places + [n];
      }
    }
  }

  lemma UnderPrefix(blocks: seq<Block>, n: nat, i: nat, fold: string -> string, name: string)
    requires i < n <= |blocks|
    ensures Under(blocks[..n], i, fold, name) == Under(blocks, i, fold, name)
  {
    assert blocks[..n][..i] == blocks[..i];
  }

  lemma NothingAscends(limit: nat)
    ensures Ascending([], limit)
  {
  }

  lemma AscendingGrows(places: seq<nat>, n: nat)
    requires Ascending(places, n)
    ensures Ascending(places, n + 1) && Ascending(places + [n], n + 1) && n !in places
  {
  }

  // ---------------------------------------------------------------- the printer

  const HARD_BREAK := JObj(map["type" := JStr("hardBreak")])

  function TextNode(line: string): Json {
    JObj(map["type" := JStr("text"), "text" := JStr(line)])
  }

  /** The nodes of one line: a break before every line but the first, and no empty text. */
  function LineNodes(first: bool, line: string): seq<Json> {
    (if first then [] else [HARD_BREAK]) + if line == "" then [] else [TextNode(line)]
  }

  function Paragraph(lines: seq<string>): seq<Json> {
    if lines == [] then []
    else Paragraph(lines[..|lines| - 1]) + LineNodes(|lines| == 1, lines[|lines| - 1])
  }

  function DocumentNode(content: seq<Json>): Json {
    JObj(map[
      "type" := JStr("doc"),
      "version" := JNum(1.0),
      "content" := JArr([JObj(map["type" := JStr("paragraph"), "content" := JArr(content)])])])
  }

  function Printed(text: string): Result<Json, AdfFault> {
    var normalized := Strip(text);
    if normalized == "" || |normalized| > MAX_COMMENT then Err(TextFault)
    else Ok(DocumentNode(Paragraph(Split(normalized, '\n'))))
  }

  method ParagraphDocument(text: string) returns (r: Result<Json, AdfFault>)
    ensures r == Printed(text)
  {
    var normalized := Strip(text);
    if normalized == "" || |normalized| > MAX_COMMENT {
      return Err(TextFault);
    }
    hide Strip, DocumentNode;
    var lines := Split(normalized, '\n');
    var content: seq<Json> := [];
    var index := 0;
    while index < |lines|
      invariant 0 <= index <= |lines|
      invariant content == Paragraph(lines[..index])
    {
      var before := content;
      assert lines[..index + 1][..index] == lines[..index];
      if index > 0 {
        content := content + [HARD_BREAK];
      }
      if lines[index] != "" {
        content := content + [TextNode(lines[index])];
      }
      assert content == before + LineNodes(index == 0, lines[index]);
      index := index + 1;
    }
    assert lines[..index] == lines;
    return Ok(DocumentNode(content));
  }

  // ---------------------------------------------------------------- printing, then reading

  lemma {:induction false} JoinAppend(lines: seq<string>, last: string, separator: string)
    requires lines != []
    ensures Join(lines + [last], separator) == Join(lines, separator) + separator + last
  {
    var all := lines + [last];
    assert all[1..] == lines[1..] + [last];
    if |lines| > 1 {
      JoinAppend(lines[1..], last, separator);
    } else {
      assert Join(all[1..], separator) == last;
    }
  }

  /** The characters that the text nodes of some lines hold. */
  function LineCharacters(lines: seq<string>): nat {
    if lines == [] then 0 else LineCharacters(lines[..|lines| - 1]) + |lines[|lines| - 1]|
  }

  /** Appending leaves to a list of nodes. */
  lemma AppendLeaf(nodes: seq<Json>, leaf: Json)
    requires IsLeaf(leaf) && WellFormed(leaf)
    ensures AllNodes(nodes + [leaf]) == AllNodes(nodes) + 1
    ensures AllCharacters(nodes + [leaf]) == AllCharacters(nodes) + |OwnText(leaf)|
    ensures AllHeights(nodes + [leaf]) == AllHeights(nodes)
    ensures AllWellFormed(nodes + [leaf]) == AllWellFormed(nodes)
    ensures AllRenderings(nodes + [leaf]) == AllRenderings(nodes) + Rendering(leaf)
  {
    assert (nodes + [leaf])[..|nodes|] == nodes;
  }

  lemma LeavesAreOk(line: string)
    ensures IsLeaf(HARD_BREAK) && WellFormed(HARD_BREAK) && OwnText(HARD_BREAK) == "" && Rendering(HARD_BREAK) == "\n"
    ensures IsLeaf(TextNode(line)) && WellFormed(TextNode(line)) && OwnText(TextNode(line)) == line
    ensures Rendering(TextNode(line)) == line
  {
    assert |"text"| == 4 && |"hardBreak"| == 9;
  }

  lemma AppendLine(nodes: seq<Json>, first: bool, line: string)
    ensures
      var all := nodes + LineNodes(first, line);
      && AllNodes(all) == AllNodes(nodes) + |LineNodes(first, line)|
      && AllCharacters(all) == AllCharacters(nodes) + |line|
      && AllHeights(all) == AllHeights(nodes)
      && AllWellFormed(all) == AllWellFormed(nodes)
      && AllRenderings(all) == AllRenderings(nodes) + (if first then "" else "\n") + line
  {
    hide IsLeaf, WellFormed, OwnText, Rendering, AllNodes, AllCharacters, AllHeights, AllWellFormed, AllRenderings, TextNode;
    LeavesAreOk(line);
    var broken := nodes + if first then [] else [HARD_BREAK];
    if first {
      assert broken == nodes;
    } else {
      AppendLeaf(nodes, HARD_BREAK);
    }
    var all := nodes + LineNodes(first, line);
    if line == "" {
      assert all == broken;
    } else {
      AppendLeaf(broken, TextNode(line));
      assert all == broken + [TextNode(line)];
    }
  }

  /** The paragraph of some lines is flat, says the lines, and costs at most its text. */
  lemma {:induction false} ParagraphMeasures(lines: seq<string>)
    requires lines != []
    ensures
      var content := Paragraph(lines);
      && AllWellFormed(content) && AllHeights(content) == 0
      && AllNodes(content) == |content| <= |Join(lines, "\n")|
      && AllCharacters(content) == LineCharacters(lines) <= |Join(lines, "\n")|
      && AllRenderings(content) == Join(lines, "\n")
    decreases |lines|
  {
    hide AllNodes, AllCharacters, AllHeights, AllWellFormed, AllRenderings;
    var front := lines[..|lines| - 1];
    var last := lines[|lines| - 1];
    AppendLine(Paragraph(front), |lines| == 1, last);
    if front == [] {
      NothingMeasures();
      assert lines == [last];
    } else {
      ParagraphMeasures(front);
      JoinAppend(front, last, "\n");
      assert lines == front + [last];
    }
  }

  lemma NothingMeasures()
    ensures AllNodes([]) == 0 && AllCharacters([]) == 0 && AllHeights([]) == 0
    ensures AllWellFormed([]) && AllRenderings([]) == ""
  {
  }

  /** The lines of a printed text. */
  function LinesOf(text: string): seq<string> {
    Split(Strip(text), '\n')
  }

  lemma DocumentMeasures(content: seq<Json>)
    ensures
      var paragraph := JObj(map["type" := JStr("paragraph"), "content" := JArr(content)]);
      var value := DocumentNode(content);
      && IsDocument(value) && ContentOk(value) && Children(value) == [paragraph]
      && !IsType(paragraph, "heading") && IsLine(paragraph) && !IsLeaf(paragraph)
      && ContentOk(paragraph) && Children(paragraph) == content
  {
    assert |"paragraph"| == 9 && "paragraph"[0] == 'p' && |"text"| == 4 && "hardBreak"[0] == 'h' && |"heading"| == 7;
    assert |"content"| == 7 && |"type"| == 4 && |"version"| == 7 && "content"[0] == 'c' && "version"[0] == 'v';
  }

  lemma AloneFits(j: Json, depth: nat, nodesLeft: int, charactersLeft: int)
    ensures AllFit([j], depth, nodesLeft, charactersLeft) <==> Fits(j, depth, nodesLeft, charactersLeft)
  {
    assert [j][..0] == [] && [j][..1] == [j];
    AllFitStep([j], 0, depth, nodesLeft, charactersLeft);
  }

  /**
   What is printed is read back as the trimmed text, with no sections, exactly when the limits
   allow for the nodes and the characters that were printed.
   */
  lemma PrintThenParse(text: string, maxNodes: int, maxCharacters: int, fold: string -> string)
    requires Printed(text).Ok? && maxNodes >= 1 && maxCharacters >= 1
    ensures
      Parsed(Printed(text).value, maxNodes, maxCharacters, fold)
      == if 2 + |Paragraph(LinesOf(text))| <= maxNodes && LineCharacters(LinesOf(text)) <= maxCharacters
         then Ok(AdfDocument(Strip(text), map[])) else Err(ParseFault)
  {
    hide DocumentNode, IsDocument, IsType, IsLine, IsLeaf, ContentOk, Children, Strip, Split, AllFit, Fits;
    hide Rendering, AllNodes, AllCharacters, AllHeights, AllWellFormed, AllRenderings, Paragraph, LineCharacters;
    var content := Paragraph(LinesOf(text));
    var paragraph := JObj(map["type" := JStr("paragraph"), "content" := JArr(content)]);
    DocumentMeasures(content);
    ParagraphMeasures(LinesOf(text));
    AloneFits(paragraph, 1, maxNodes - 1, maxCharacters);
    FitsBelow(paragraph, 1, maxNodes - 1, maxCharacters);
    FlatFits(content, 2, maxNodes - 2, maxCharacters);
    JoinSplit(Strip(text), '\n');
    StripIsTrimmed(text);
    OneBlock(paragraph, Strip(text), fold);
  }

  lemma FlatFits(content: seq<Json>, depth: nat, nodesLeft: int, charactersLeft: int)
    requires AllWellFormed(content) && AllHeights(content) == 0 && depth <= MAX_DEPTH
    ensures AllFit(content, depth, nodesLeft, charactersLeft)
       <==> AllNodes(content) <= nodesLeft && AllCharacters(content) <= charactersLeft
  {
  }

  lemma OneBlock(paragraph: Json, text: string, fold: string -> string)
    requires !IsType(paragraph, "heading") && Trimmed(text) && text != ""
    requires Rendering(paragraph) == Strip(text) + "\n"
    ensures Blocks([paragraph]) == [Block(text, false)]
    ensures AdfDocument(
              Strip(Join(Texts([Block(text, false)]), "\n\n")), Sections([Block(text, false)], fold))
            == AdfDocument(text, map[])
  {
    hide Strip, Rendering, IsSpace, Sections, IsType;
    StripOfTrimmed(text);
    assert [paragraph][..0] == [];
    assert Blocks([]) == [];
    assert Texts([Block(text, false)]) == [text];
    NoSections(text, fold);
  }

  lemma StripOfTrimmed(text: string)
    requires Trimmed(text)
    ensures Strip(text) == text && Strip(text + "\n") == text
  {
    StripPadded("", text, "\n");
    StripPadded("", text, "");
    assert "" + text + "" == text && "" + text + "\n" == text + "\n";
  }

  lemma NoSections(text: string, fold: string -> string)
    ensures Sections([Block(text, false)], fold) == map[]
  {
    hide Strip, Join, Parts;
    assert HeadingNames([Block(text, false)], fold) == {};
  }

  /** What printing costs: at most one node for each character, and two more. */
  lemma PrintedCost(text: string)
    requires Printed(text).Ok?
    ensures |Paragraph(LinesOf(text))| <= |Strip(text)| && LineCharacters(LinesOf(text)) <= |Strip(text)| <= MAX_COMMENT
  {
    ParagraphMeasures(LinesOf(text));
    JoinSplit(Strip(text), '\n');
  }

  /** Up to 4094 characters survive the default limits; every text does with 10002 nodes. */
  lemma RoundTripWithin(text: string, maxNodes: int, maxCharacters: int, fold: string -> string)
    requires Printed(text).Ok? && maxNodes >= |Strip(text)| + 2 && maxCharacters >= |Strip(text)|
    ensures Parsed(Printed(text).value, maxNodes, maxCharacters, fold) == Ok(AdfDocument(Strip(text), map[]))
  {
    hide Parsed, Paragraph, LineCharacters, Strip;
    PrintedCost(text);
    assert |Strip(text)| > 0;
    PrintThenParse(text, maxNodes, maxCharacters, fold);
  }

  /** `n` times `a` and a line feed, then a last `a`. */
  function Alternating(n: nat): (s: string)
    ensures |s| == 2 * n + 1 && s[0] == 'a' && s[|s| - 1] == 'a'
  {
    if n == 0 then "a" else "a\n" + Alternating(n - 1)
  }

  predicate AllA(lines: seq<string>) {
    forall i | 0 <= i < |lines| :: lines[i] == "a"
  }

  lemma {:induction false} AlternatingLines(n: nat)
    ensures |Split(Alternating(n), '\n')| == n + 1 && AllA(Split(Alternating(n), '\n'))
  {
    hide Split;
    if n > 0 {
      AlternatingLines(n - 1);
      SplitFirst("a", Alternating(n - 1), '\n');
      assert "a" + ['\n'] == "a\n";
    } else {
      SplitWhole("a", '\n');
    }
  }

  lemma {:induction false} AllACost(lines: seq<string>)
    requires lines != [] && AllA(lines)
    ensures |Paragraph(lines)| == 2 * |lines| - 1
    decreases |lines|
  {
    if |lines| > 1 {
      AllACost(lines[..|lines| - 1]);
    } else {
      assert Paragraph(lines[..0]) == [];
    }
  }

  /**
   The bound of 4094 is sharp: there is a text of 4095 characters that is printed without
   complaint but cannot be read back under the default limits.
   */
  lemma DefaultLimitsAreExceeded(fold: string -> string)
    ensures
      var text := Alternating(2047);
      && |Strip(text)| == 4095 && Printed(text).Ok?
      && Parsed(Printed(text).value, 4_096, 50_000, fold) == Err(ParseFault)
  {
    hide Parsed, Paragraph, Alternating, Strip;
    var text := Alternating(2047);
    StripOfTrimmed(text);
    AlternatingLines(2047);
    AllACost(LinesOf(text));
    PrintThenParse(text, 4_096, 50_000, fold);
  }
}
