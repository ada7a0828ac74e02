/**
 Any sequence of publications on one issue, by callers that do not publish under one key at
 the same time, with comments by others arriving throughout: each idempotency key ends up on
 at most one comment, and that comment is bound to one operation.
 */
module JiraHistories {
  import opened Wrappers
  import opened Text
  import opened JsonValues
  import opened JiraComments

  // ---------------------------------------------------------------- who holds a key

  predicate Readable(comment: Json) {
    comment.JObj? && PropertiesOf(comment.fields).Some?
  }

  /** Some property of the comment claims the key. */
  predicate Holds(comment: Json, key: string) {
    Readable(comment) && exists p | p in PropertiesOf(comment.fields).value :: PropertyClaims(p, key)
  }

  /** A comment without a property of that name, as everybody else writes them. */
  predicate Unbound(comment: Json) {
    Readable(comment) ==> forall p | p in PropertiesOf(comment.fields).value :: BoundValue(p).None?
  }

  predicate AllUnbound(comments: seq<Json>) {
    forall c | c in comments :: Unbound(c)
  }

  /** How many comments hold the key. */
  function Holders(comments: seq<Json>, key: string): nat {
    if comments == [] then 0
    else Holders(comments[..|comments| - 1], key) + if Holds(comments[|comments| - 1], key) then 1 else 0
  }

  lemma {:induction false} HoldersAppend(a: seq<Json>, b: seq<Json>, key: string)
    ensures Holders(a + b, key) == Holders(a, key) + Holders(b, key)
  {
    hide Holds;
    if b == [] {
      assert a + b == a;
    } else {
      assert (a + b)[..|a + b| - 1] == a + b[..|b| - 1];
      HoldersAppend(a, b[..|b| - 1], key);
    }
  }

  lemma {:induction false} UnboundHoldNothing(comments: seq<Json>, key: string)
    requires AllUnbound(comments)
    ensures Holders(comments, key) == 0
  {
    if comments != [] {
      UnboundHoldNothing(comments[..|comments| - 1], key);
      assert comments[|comments| - 1] in comments;
    }
  }

  lemma HolderCounts(comments: seq<Json>, key: string, k: nat)
    requires k < |comments| && Holds(comments[k], key)
    ensures Holders(comments, key) >= 1
  {
    hide Holds;
    assert comments == comments[..k] + [comments[k]] + comments[k + 1..];
    HoldersAppend(comments[..k] + [comments[k]], comments[k + 1..], key);
    HoldersAppend(comments[..k], [comments[k]], key);
    assert [comments[k]][..0] == [];
  }

  /** With at most one holder, two positions that hold the key are the same. */
  lemma OneHolder(comments: seq<Json>, key: string, j: nat, k: nat)
    requires j < |comments| && k < |comments| && Holds(comments[j], key) && Holds(comments[k], key)
    requires Holders(comments, key) <= 1
    ensures j == k
  {
    hide Holds;
    if j != k {
      var low, high := if j < k then j else k, if j < k then k else j;
      assert comments == comments[..low + 1] + comments[low + 1..];
      HoldersAppend(comments[..low + 1], comments[low + 1..], key);
      HolderCounts(comments[..low + 1], key, low);
      HolderCounts(comments[low + 1..], key, high - low - 1);
    }
  }

  // ---------------------------------------------------------------- what a search tells

  lemma {:induction false} UnmatchedClaimsNothing(properties: seq<Json>, b: Binding)
    requires MatchProperties(properties, b) == Ok(false)
    ensures forall p | p in properties :: !PropertyClaims(p, b.key)
  {
    if properties != [] {
      UnmatchedClaimsNothing(properties[1..], b);
    }
  }

  lemma {:induction false} MatchedClaims(properties: seq<Json>, b: Binding)
    requires MatchProperties(properties, b) == Ok(true)
    ensures exists p | p in properties :: PropertyClaims(p, b.key)
  {
    if BoundValue(properties[0]) == Some(BindingValue(b)) {
      BindingClaims(b);
      assert PropertyClaims(properties[0], b.key);
    } else {
      MatchedClaims(properties[1..], b);
    }
  }

  lemma BindingClaims(b: Binding)
    ensures forall key :: Claims(BindingValue(b), key) <==> key == b.key
  {
    assert |"idempotencyKey"| == 14 && |"operationDigest"| == 15;
  }

  lemma BindingsDiffer(b: Binding, other: Binding)
    requires BindingValue(b) == BindingValue(other)
    ensures b == other
  {
    assert |"idempotencyKey"| == 14 && |"operationDigest"| == 15;
    assert BindingValue(b).fields["idempotencyKey"] == JStr(b.key);
    assert BindingValue(b).fields["operationDigest"] == JStr(b.digest);
  }

  /** Of the operations that share a key, a comment is bound to one. */
  lemma {:induction false} BoundToOne(properties: seq<Json>, b: Binding, other: Binding)
    requires MatchProperties(properties, b) == Ok(true) && other.key == b.key
    ensures MatchProperties(properties, other) == if other == b then Ok(true) else Err(ReuseFault)
  {
    hide BindingValue;
    BindingClaims(b);
    BindingClaims(other);
    assert BoundValue(properties[0]) == Some(BindingValue(b)) ==> PropertyClaims(properties[0], b.key);
    assert BoundValue(properties[0]) == Some(BindingValue(other)) ==> PropertyClaims(properties[0], b.key);
    if BoundValue(properties[0]) == Some(BindingValue(b)) {
      if BindingValue(b) == BindingValue(other) {
        BindingsDiffer(b, other);
      }
    } else {
      BoundToOne(properties[1..], b, other);
    }
  }

  lemma ExaminedNothing(cfg: Config, issueKey: string, comment: Json, b: Binding)
    requires Examine(cfg, issueKey, comment, b) == Ok(None)
    ensures !Holds(comment, b.key)
  {
    hide PropertyClaims;
    UnmatchedClaimsNothing(PropertiesOf(comment.fields).value, b);
  }

  /** A search that came to the end without meeting the key: nobody holds it. */
  lemma {:induction false} ScannedNothing(cfg: Config, issueKey: string, comments: seq<Json>, b: Binding)
    requires Scan(cfg, issueKey, comments, b) == Ok(None)
    ensures Holders(comments, b.key) == 0
  {
    hide Examine, Holds;
    if comments != [] {
      ExaminedNothing(cfg, issueKey, comments[0], b);
      ScannedNothing(cfg, issueKey, comments[1..], b);
      HoldersAppend([comments[0]], comments[1..], b.key);
      assert [comments[0]][..0] == [];
      assert comments == [comments[0]] + comments[1..];
    }
  }

  /** The comment at `k` carries the receipt. */
  predicate ReceiptAt(cfg: Config, issueKey: string, comments: seq<Json>, k: nat, b: Binding, receipt: Receipt) {
    k < |comments| && Examine(cfg, issueKey, comments[k], b) == Ok(Some(receipt))
  }

  lemma {:induction false} ScannedReceipt(cfg: Config, issueKey: string, comments: seq<Json>, b: Binding, receipt: Receipt)
    returns (k: nat)
    requires Scan(cfg, issueKey, comments, b) == Ok(Some(receipt))
    ensures ReceiptAt(cfg, issueKey, comments, k, b, receipt)
  {
    hide Examine;
    k := 0;
    if Examine(cfg, issueKey, comments[0], b) == Ok(None) {
      k := ScannedReceipt(cfg, issueKey, comments[1..], b, receipt);
      k := k + 1;
    }
  }

  /** The comment at `k` is bound to exactly this operation. */
  predicate BoundAt(comments: seq<Json>, k: nat, b: Binding) {
    && k < |comments|
    && Readable(comments[k])
    && MatchProperties(PropertiesOf(comments[k].fields).value, b) == Ok(true)
  }

  lemma BoundHolds(comments: seq<Json>, k: nat, b: Binding)
    requires BoundAt(comments, k, b)
    ensures Holds(comments[k], b.key)
  {
    hide PropertyClaims;
    MatchedClaims(PropertiesOf(comments[k].fields).value, b);
  }

  lemma ReceiptIsBound(cfg: Config, issueKey: string, comments: seq<Json>, k: nat, b: Binding, receipt: Receipt)
    requires ReceiptAt(cfg, issueKey, comments, k, b, receipt)
    ensures BoundAt(comments, k, b) && ReceiptOf(cfg, issueKey, b.key, comments[k].fields) == Ok(receipt)
  {
  }

  lemma NewCommentIsBound(service: Service, n: nat, b: Binding, document: Json)
    ensures
      var c := NewComment(service, n, b, document);
      && Readable(c) && MatchProperties(PropertiesOf(c.fields).value, b) == Ok(true)
      && forall key :: Holds(c, key) <==> key == b.key
  {
    hide BindingValue;
    assert |"id"| == 2 && |"created"| == 7 && |"properties"| == 10 && |"body"| == 4;
    assert |"key"| == 3 && |"value"| == 5;
    BindingClaims(b);
    var c := NewComment(service, n, b, document);
    var p := PropertiesOf(c.fields).value[0];
    assert PropertiesOf(c.fields).value == [p] && BoundValue(p) == Some(BindingValue(b));
    assert MatchProperties([p], b) == Ok(true);
    forall key
      ensures Holds(c, key) <==> key == b.key
    {
      assert p in PropertiesOf(c.fields).value;
      assert PropertyClaims(p, key) <==> key == b.key;
    }
  }

  // ---------------------------------------------------------------- histories

  datatype Moment = Moment(call: Call, outcome: Outcome)

  function Timeline(cfg: Config, service: Service, start: seq<Json>, moments: seq<Moment>): seq<Json> {
    if moments == [] then start
    else
      var last := moments[|moments| - 1];
      After(cfg, service, Timeline(cfg, service, start, moments[..|moments| - 1]), last.call, last.outcome)
  }

  /** The call at `i` found what was there at that time, and others left the property alone. */
  predicate Happened(cfg: Config, service: Service, start: seq<Json>, moments: seq<Moment>, i: int) {
    && 0 <= i < |moments|
    && Publishes(cfg, service, Timeline(cfg, service, start, moments[..i]), moments[i].call, moments[i].outcome)
    && AllUnbound(moments[i].outcome.seen) && AllUnbound(moments[i].outcome.later)
  }

  predicate HistoryOf(cfg: Config, service: Service, start: seq<Json>, moments: seq<Moment>) {
    AllUnbound(start) && forall i | 0 <= i < |moments| :: Happened(cfg, service, start, moments, i)
  }

  lemma HistoryFront(cfg: Config, service: Service, start: seq<Json>, moments: seq<Moment>, n: nat)
    requires HistoryOf(cfg, service, start, moments) && n <= |moments|
    ensures HistoryOf(cfg, service, start, moments[..n])
  {
    hide Publishes, AllUnbound, Timeline;
    forall i | 0 <= i < n
      ensures Happened(cfg, service, start, moments[..n], i)
    {
      assert Happened(cfg, service, start, moments, i);
      assert moments[..n][..i] == moments[..i];
    }
  }

  /** One call adds at most one holder, and only when there was none. */
  lemma CallKeepsOne(cfg: Config, service: Service, before: seq<Json>, call: Call, o: Outcome, key: string)
    requires Publishes(cfg, service, before, call, o) && AllUnbound(o.seen) && AllUnbound(o.later)
    requires Holders(before, key) <= 1
    ensures Holders(After(cfg, service, before, call, o), key) <= 1
    ensures o.post.Some? && key == BindingOf(cfg, call).key ==> Holders(before, key) == 0
  {
    hide Scan, Holds, Examine, CallFault, ReceiptOf, NewComment, AllUnbound;
    var b := BindingOf(cfg, call);
    var posted := PostedComments(cfg, service, call, o);
    HoldersAppend(before + (o.seen + o.later), posted, key);
    HoldersAppend(before, o.seen + o.later, key);
    HoldersAppend(o.seen, o.later, key);
    UnboundHoldNothing(o.seen, key);
    UnboundHoldNothing(o.later, key);
    if o.post.Some? {
      HoldersAppend(before, o.seen, key);
      PostedHolds(service, o.post.value, b, DocumentFor(call), key);
      if key == b.key {
        ScannedNothing(cfg, service.issueKey, before + o.seen, b);
      }
    }
  }

  lemma PostedHolds(service: Service, n: nat, b: Binding, document: Json, key: string)
    ensures Holders(Created(service, n, CreateComment(b, document)), key) <= if key == b.key then 1 else 0
  {
    hide Holds, NewComment;
    NewCommentIsBound(service, n, b, document);
    var c := NewComment(service, n, b, document);
    assert [c][..0] == [];
  }

  /** Each idempotency key is on at most one comment, after every history of calls. */
  lemma {:induction false} AtMostOneComment(
    cfg: Config, service: Service, start: seq<Json>, moments: seq<Moment>, key: string)
    requires HistoryOf(cfg, service, start, moments)
    ensures Holders(Timeline(cfg, service, start, moments), key) <= 1
    decreases |moments|
  {
    hide Publishes, After, Holders, AllUnbound;
    if moments == [] {
      UnboundHoldNothing(start, key);
    } else {
      var n := |moments| - 1;
      HistoryFront(cfg, service, start, moments, n);
      AtMostOneComment(cfg, service, start, moments[..n], key);
      assert Happened(cfg, service, start, moments, n);
      CallKeepsOne(
        cfg, service, Timeline(cfg, service, start, moments[..n]), moments[n].call, moments[n].outcome, key);
    }
  }

  /** Comments are never removed or changed. */
  lemma {:induction false} TimelineGrows(cfg: Config, service: Service, start: seq<Json>, moments: seq<Moment>, n: nat)
    requires n <= |moments|
    ensures Timeline(cfg, service, start, moments[..n]) <= Timeline(cfg, service, start, moments)
    decreases |moments|
  {
    hide PostedComments;
    if n < |moments| {
      var m := |moments| - 1;
      TimelineGrows(cfg, service, start, moments[..m], n);
      assert moments[..m][..n] == moments[..n];
    } else {
      assert moments[..n] == moments;
    }
  }

  /** The call at `i` put its operation on the issue, or learned that it is there. */
  predicate Effective(service: Service, moments: seq<Moment>, i: int)
    requires 0 <= i < |moments|
  {
    var o := moments[i].outcome;
    o.result.Ok? || (o.post.Some? && TakesEffect(service.weather(o.post.value).trouble))
  }

  /** After an effective call there is a comment bound to its operation. */
  lemma EffectiveIsBound(cfg: Config, service: Service, before: seq<Json>, call: Call, o: Outcome) returns (k: nat)
    requires Publishes(cfg, service, before, call, o)
    requires o.result.Ok? || (o.post.Some? && TakesEffect(service.weather(o.post.value).trouble))
    ensures
      var after := After(cfg, service, before, call, o);
      && BoundAt(after, k, BindingOf(cfg, call))
      && (o.result.Ok? ==>
            && ReceiptOf(cfg, service.issueKey, BindingOf(cfg, call).key, after[k].fields)
               == Ok(o.result.value.(digest := None))
            && o.result.value.digest == if o.post.Some? then Some(BindingOf(cfg, call).digest) else None)
  {
    hide Scan, Examine, MatchProperties, PropertiesOf, ReceiptOf, NewComment, DocumentFor;
    var b := BindingOf(cfg, call);
    var after := After(cfg, service, before, call, o);
    if o.post.Some? {
      k := |before + (o.seen + o.later)|;
      NewCommentIsBound(service, o.post.value, b, DocumentFor(call));
      assert after[k] == NewComment(service, o.post.value, b, DocumentFor(call));
      if o.result.Ok? {
        NoDigest(cfg, service.issueKey, b.key, after[k].fields);
      }
    } else {
      k := ScannedReceipt(cfg, service.issueKey, before + o.seen, b, o.result.value);
      ReceiptIsBound(cfg, service.issueKey, before + o.seen, k, b, o.result.value);
      assert after[k] == (before + o.seen)[k];
      NoDigest(cfg, service.issueKey, b.key, after[k].fields);
    }
  }

  lemma NoDigest(cfg: Config, issueKey: string, key: string, fields: map<string, Json>)
    ensures
      var r := ReceiptOf(cfg, issueKey, key, fields);
      r.Ok? ==> r.value.digest.None? && r.value.(digest := None) == r.value
  {
  }

  /** A further call, made on what the history has left, continues the history. */
  lemma HistoryGrows(
    cfg: Config, service: Service, start: seq<Json>, moments: seq<Moment>, call: Call, o: Outcome)
    requires HistoryOf(cfg, service, start, moments)
    requires Publishes(cfg, service, Timeline(cfg, service, start, moments), call, o)
    requires AllUnbound(o.seen + o.later)
    ensures
      var grown := moments + [Moment(call, o)];
      && HistoryOf(cfg, service, start, grown)
      && Timeline(cfg, service, start, grown)
         == After(cfg, service, Timeline(cfg, service, start, moments), call, o)
  {
    hide Publishes, Timeline, Unbound;
    var grown := moments + [Moment(call, o)];
    TimelineStep(cfg, service, start, moments, Moment(call, o));
    forall i | 0 <= i < |grown|
      ensures Happened(cfg, service, start, grown, i)
    {
      if i < |moments| {
        assert Happened(cfg, service, start, moments, i);
        assert grown[..i] == moments[..i];
      } else {
        assert grown[..i] == moments;
      }
    }
  }

  lemma TimelineStep(cfg: Config, service: Service, start: seq<Json>, moments: seq<Moment>, m: Moment)
    ensures Timeline(cfg, service, start, moments + [m])
         == After(cfg, service, Timeline(cfg, service, start, moments), m.call, m.outcome)
  {
    assert (moments + [m])[..|moments|] == moments;
  }

  /** A position of the list as it is after the whole history, bound by the call at `i`. */
  lemma BoundEver(cfg: Config, service: Service, start: seq<Json>, moments: seq<Moment>, i: nat, n: nat)
    returns (k: nat)
    requires HistoryOf(cfg, service, start, moments) && i < n <= |moments| && Effective(service, moments, i)
    ensures
      var now := Timeline(cfg, service, start, moments[..n]);
      var b := BindingOf(cfg, moments[i].call);
      && BoundAt(now, k, b)
      && (moments[i].outcome.result.Ok? ==>
            && ReceiptOf(cfg, service.issueKey, b.key, now[k].fields)
               == Ok(moments[i].outcome.result.value.(digest := None))
            && moments[i].outcome.result.value.digest
               == if moments[i].outcome.post.Some? then Some(b.digest) else None)
  {
    hide Publishes, After, AllUnbound, MatchProperties, PropertiesOf, ReceiptOf;
    assert Happened(cfg, service, start, moments, i);
    var before := Timeline(cfg, service, start, moments[..i]);
    k := EffectiveIsBound(cfg, service, before, moments[i].call, moments[i].outcome);
    assert moments[..i + 1][..i] == moments[..i];
    var grown := Timeline(cfg, service, start, moments[..i + 1]);
    assert grown == After(cfg, service, before, moments[i].call, moments[i].outcome);
    assert moments[..n][..i + 1] == moments[..i + 1];
    TimelineGrows(cfg, service, start, moments[..n], i + 1);
    assert Timeline(cfg, service, start, moments[..n])[k] == grown[k];
  }

  /**
   Repeating an operation returns the receipt of the same comment: two calls of one operation
   that both succeed return the same receipt, whatever happened in between, but for the digest,
   which only the call that created the comment gets.
   */
  lemma SameReceipt(cfg: Config, service: Service, start: seq<Json>, moments: seq<Moment>, i: nat, j: nat)
    requires HistoryOf(cfg, service, start, moments) && i < |moments| && j < |moments|
    requires BindingOf(cfg, moments[i].call) == BindingOf(cfg, moments[j].call)
    requires moments[i].outcome.result.Ok? && moments[j].outcome.result.Ok?
    ensures moments[i].outcome.result.value.(digest := None) == moments[j].outcome.result.value.(digest := None)
    ensures moments[i].outcome.result.value.digest
         == if moments[i].outcome.post.Some? then Some(BindingOf(cfg, moments[i].call).digest) else None
  {
    hide HistoryOf, Holders, BoundAt, ReceiptOf, Timeline, Holds;
    var b := BindingOf(cfg, moments[i].call);
    var k := BoundEver(cfg, service, start, moments, i, |moments|);
    var l := BoundEver(cfg, service, start, moments, j, |moments|);
    assert moments[..|moments|] == moments;
    var now := Timeline(cfg, service, start, moments);
    AtMostOneComment(cfg, service, start, moments, b.key);
    BoundInRange(now, k, b);
    BoundInRange(now, l, b);
    OneHolder(now, b.key, k, l);
  }

  lemma BoundInRange(comments: seq<Json>, k: nat, b: Binding)
    requires BoundAt(comments, k, b)
    ensures k < |comments| && Holds(comments[k], b.key) && comments[k].JObj?
  {
    BoundHolds(comments, k, b);
  }

  /** What a search says about a key that a comment holds: never that it is free. */
  lemma HeldIsNotFree(cfg: Config, issueKey: string, comments: seq<Json>, pageSize: nat, k: nat, b: Binding)
    requires k < |comments| && Holds(comments[k], b.key)
    ensures Limited(cfg, issueKey, comments, pageSize, b) != Ok(None)
  {
    hide Scan, Holds;
    if Scan(cfg, issueKey, comments, b) == Ok(None) {
      ScannedNothing(cfg, issueKey, comments, b);
      HolderCounts(comments, b.key, k);
    }
  }

  lemma LimitedIsScan(
    cfg: Config, issueKey: string, comments: seq<Json>, pageSize: nat, b: Binding, receipt: Receipt)
    requires Limited(cfg, issueKey, comments, pageSize, b) == Ok(Some(receipt))
    ensures Scan(cfg, issueKey, comments, b) == Ok(Some(receipt))
  {
    hide Scan;
  }

  /** Only one operation per key: a comment bound to one is not the receipt of another. */
  lemma OtherIsNotFound(
    cfg: Config, issueKey: string, comments: seq<Json>, pageSize: nat, k: nat, b: Binding, other: Binding)
    requires BoundAt(comments, k, b) && other.key == b.key && other != b && Holders(comments, b.key) <= 1
    ensures Limited(cfg, issueKey, comments, pageSize, other).Err?
  {
    hide Scan, Limited, Holds, Examine;
    BoundInRange(comments, k, b);
    HeldIsNotFree(cfg, issueKey, comments, pageSize, k, other);
    if Limited(cfg, issueKey, comments, pageSize, other).Ok? {
      var receipt := Limited(cfg, issueKey, comments, pageSize, other).value.value;
      LimitedIsScan(cfg, issueKey, comments, pageSize, other, receipt);
      var l := ScannedReceipt(cfg, issueKey, comments, other, receipt);
      ReceiptIsBound(cfg, issueKey, comments, l, other, receipt);
      BoundInRange(comments, l, other);
      OneHolder(comments, b.key, k, l);
      BoundToOne(PropertiesOf(comments[k].fields).value, b, other);
      assert false;
    }
  }

  /** The holders of what a call searches are those of what it started from. */
  lemma SeenAddsNoHolder(before: seq<Json>, seen: seq<Json>, key: string)
    requires AllUnbound(seen)
    ensures Holders(before + seen, key) == Holders(before, key)
  {
    HoldersAppend(before, seen, key);
    UnboundHoldNothing(seen, key);
  }

  /**
   A key that has taken effect for one operation is refused to every other one: the later call
   fails and sends no request to create. Nor does a repetition of the same operation send one.
   */
  lemma KeysAreNotReused(cfg: Config, service: Service, start: seq<Json>, moments: seq<Moment>, i: nat, j: nat)
    requires HistoryOf(cfg, service, start, moments) && i < j < |moments| && Effective(service, moments, i)
    requires BindingOf(cfg, moments[i].call).key == BindingOf(cfg, moments[j].call).key
    ensures moments[j].outcome.post.None?
    ensures BindingOf(cfg, moments[i].call) != BindingOf(cfg, moments[j].call) ==> moments[j].outcome.result.Err?
  {
    hide Limited, Holders, BoundAt, ReceiptOf, Timeline, Holds, AllUnbound, CallFault, BindingOf, Effective;
    var b, other := BindingOf(cfg, moments[i].call), BindingOf(cfg, moments[j].call);
    var before := Timeline(cfg, service, start, moments[..j]);
    var o := moments[j].outcome;
    var k := BoundEver(cfg, service, start, moments, i, j);
    BoundInRange(before, k, b);
    HistoryFront(cfg, service, start, moments, j);
    AtMostOneComment(cfg, service, start, moments[..j], b.key);
    assert Happened(cfg, service, start, moments, j);
    SeenAddsNoHolder(before, o.seen, b.key);
    StillBound(before, o.seen, k, b);
    HeldIsNotFree(cfg, service.issueKey, before + o.seen, service.pageSize, k, other);
    if b != other {
      OtherIsNotFound(cfg, service.issueKey, before + o.seen, service.pageSize, k, b, other);
    }
  }

  lemma StillBound(before: seq<Json>, seen: seq<Json>, k: nat, b: Binding)
    requires BoundAt(before, k, b)
    ensures BoundAt(before + seen, k, b) && Holds((before + seen)[k], b.key)
  {
    assert (before + seen)[k] == before[k];
    BoundInRange(before, k, b);
  }

  // ---------------------------------------------------------------- a retry succeeds

  predicate AllReadable(comments: seq<Json>) {
    forall c | c in comments :: Readable(c)
  }

  lemma {:induction false} UnclaimedIsUnmatched(properties: seq<Json>, b: Binding)
    requires forall p | p in properties :: !PropertyClaims(p, b.key)
    ensures MatchProperties(properties, b) == Ok(false)
  {
    hide BindingValue;
    if properties != [] {
      BindingClaims(b);
      assert properties[0] in properties;
      UnclaimedIsUnmatched(properties[1..], b);
    }
  }

  lemma PassedOver(cfg: Config, issueKey: string, comment: Json, b: Binding)
    requires Readable(comment) && !Holds(comment, b.key)
    ensures Examine(cfg, issueKey, comment, b) == Ok(None)
  {
    hide PropertyClaims;
    UnclaimedIsUnmatched(PropertiesOf(comment.fields).value, b);
  }

  /** A search meets the one holder of its key. */
  lemma {:induction false} ScanMeetsHolder(cfg: Config, issueKey: string, comments: seq<Json>, k: nat, b: Binding)
    requires k < |comments| && AllReadable(comments) && Holds(comments[k], b.key) && Holders(comments, b.key) <= 1
    requires Examine(cfg, issueKey, comments[k], b) != Ok(None)
    ensures Scan(cfg, issueKey, comments, b) == Examine(cfg, issueKey, comments[k], b)
  {
    hide Examine, Holds, Readable;
    if k > 0 {
      assert comments[0] in comments;
      if Holds(comments[0], b.key) {
        OneHolder(comments, b.key, 0, k);
        assert false;
      }
      PassedOver(cfg, issueKey, comments[0], b);
      assert comments == [comments[0]] + comments[1..];
      HoldersAppend([comments[0]], comments[1..], b.key);
      ScanMeetsHolder(cfg, issueKey, comments[1..], k - 1, b);
    }
  }

  /**
   An operation that took effect, even if its caller never heard of it, is found by every later
   search that stays within the limit; and a search for another operation under its key ends in
   the exception for reuse.
   */
  lemma RetryFindsIt(
    cfg: Config, service: Service, start: seq<Json>, moments: seq<Moment>, seen: seq<Json>, i: nat, other: Binding)
    returns (receipt: Result<Receipt, JiraFault>)
    requires HistoryOf(cfg, service, start, moments) && i < |moments| && Effective(service, moments, i)
    requires AllUnbound(seen) && AllReadable(Timeline(cfg, service, start, moments) + seen)
    requires |Timeline(cfg, service, start, moments) + seen| <= 10 * service.pageSize
    requires other.key == BindingOf(cfg, moments[i].call).key
    ensures moments[i].outcome.result.Ok? ==> receipt == Ok(moments[i].outcome.result.value.(digest := None))
    ensures
      Limited(cfg, service.issueKey, Timeline(cfg, service, start, moments) + seen, service.pageSize, other)
      == if other != BindingOf(cfg, moments[i].call) then Err(ReuseFault)
         else match receipt case Ok(found) => Ok(Some(found)) case Err(fault) => Err(fault)
  {
    hide Scan, Timeline, Holders, Holds, Examine, BoundAt, ReceiptOf, AllReadable, BindingOf, Effective;
    var b := BindingOf(cfg, moments[i].call);
    var now := Timeline(cfg, service, start, moments);
    var k := BoundEver(cfg, service, start, moments, i, |moments|);
    assert moments[..|moments|] == moments;
    AtMostOneComment(cfg, service, start, moments, b.key);
    SeenAddsNoHolder(now, seen, b.key);
    StillBound(now, seen, k, b);
    BoundInRange(now + seen, k, b);
    BoundInRange(now, k, b);
    assert (now + seen)[k] == now[k];
    receipt := ReceiptOf(cfg, service.issueKey, b.key, now[k].fields);
    ExamineBound(cfg, service.issueKey, now + seen, k, b, other);
    ScanMeetsHolder(cfg, service.issueKey, now + seen, k, other);
  }

  lemma ExamineBound(cfg: Config, issueKey: string, comments: seq<Json>, k: nat, b: Binding, other: Binding)
    requires BoundAt(comments, k, b) && other.key == b.key
    ensures
      var receipt := ReceiptOf(cfg, issueKey, b.key, comments[k].fields);
      Examine(cfg, issueKey, comments[k], other)
      == if other != b then Err(ReuseFault)
         else match receipt case Ok(found) => Ok(Some(found)) case Err(fault) => Err(fault)
  {
    hide MatchProperties, ReceiptOf;
    BoundToOne(PropertiesOf(comments[k].fields).value, b, other);
  }

  // ---------------------------------------------------------------- keys name operations

  predicate NoNul(s: string) {
    '\0' !in s
  }

  /** With a collision-free digest, a binding names the capability and the text. */
  lemma BindingNamesOperation(cfg: Config, a: Call, b: Call)
    requires forall x, y :: cfg.hash(x) == cfg.hash(y) ==> x == y
    requires NoNul(a.capability) && NoNul(b.capability)
    requires BindingOf(cfg, a) == BindingOf(cfg, b)
    ensures a.capability == b.capability && a.text == b.text
  {
    assert "\0" == ['\0'];
    SplitHead(a.capability, a.text, b.capability, b.text, '\0');
  }
}
