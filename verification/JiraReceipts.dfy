/**
 What a successful publication tells its caller, and what it leaves on the issue: the receipt
 names the comment that is bound to the operation, and that comment says the text of the call.
 */
module JiraReceipts {
  import opened Wrappers
  import opened Text
  import opened JsonValues
  import opened JiraComments
  import opened JiraHistories
  import JiraAdf

  /** The receipt is about this comment: its id, its time of creation, the issue and the key. */
  predicate Names(cfg: Config, service: Service, comment: Json, key: string, receipt: Receipt) {
    && comment.JObj?
    && "id" in comment.fields && comment.fields["id"].JStr? && receipt.reference == Strip(comment.fields["id"].text)
    && receipt.reference != ""
    && "created" in comment.fields && comment.fields["created"].JStr?
    && cfg.parseTime(Strip(comment.fields["created"].text)) == Some(receipt.acceptedAt)
    && receipt.issueKey == service.issueKey
    && receipt.idempotencyKey == Strip(key)
  }

  lemma ReceiptNames(cfg: Config, service: Service, comment: Json, key: string, receipt: Receipt)
    requires comment.JObj? && ReceiptOf(cfg, service.issueKey, Strip(key), comment.fields) == Ok(receipt)
    ensures Names(cfg, service, comment, key, receipt)
  {
  }

  /**
   For every successful call of a history there is a comment on the issue, then and ever after,
   that is bound to the call's operation, and whose id and time of creation the receipt gives.
   */
  lemma SuccessNamesComment(
    cfg: Config, service: Service, start: seq<Json>, moments: seq<Moment>, i: nat)
    returns (k: nat)
    requires HistoryOf(cfg, service, start, moments) && i < |moments| && moments[i].outcome.result.Ok?
    ensures
      var now := Timeline(cfg, service, start, moments);
      && BoundAt(now, k, BindingOf(cfg, moments[i].call))
      && Names(cfg, service, now[k], moments[i].call.idempotencyKey, moments[i].outcome.result.value)
  {
    hide HistoryOf, Timeline, ReceiptOf, Names;
    k := BoundEver(cfg, service, start, moments, i, |moments|);
    assert moments[..|moments|] == moments;
    var now := Timeline(cfg, service, start, moments);
    var call, receipt := moments[i].call, moments[i].outcome.result.value;
    BoundInRange(now, k, BindingOf(cfg, call));
    ReceiptNames(cfg, service, now[k], call.idempotencyKey, receipt.(digest := None));
    NamesAnyDigest(cfg, service, now[k], call.idempotencyKey, receipt);
  }

  lemma NamesAnyDigest(cfg: Config, service: Service, comment: Json, key: string, receipt: Receipt)
    ensures Names(cfg, service, comment, key, receipt.(digest := None)) <==> Names(cfg, service, comment, key, receipt)
  {
  }

  lemma NewCommentFields(service: Service, n: nat, b: Binding, document: Json)
    ensures
      var c := NewComment(service, n, b, document);
      && c.JObj? && "id" in c.fields && "created" in c.fields && "body" in c.fields
      && c.fields["id"] == JStr(service.newId(n)) && c.fields["created"] == JStr(service.stamp(n))
      && c.fields["body"] == document
  {
    assert |"id"| == 2 && |"created"| == 7 && |"properties"| == 10 && |"body"| == 4;
  }

  /**
   What the caller of a creation gets: for one that went through, the id and the time that the
   server gave the comment; otherwise the exception that says how the last request fared.
   */
  lemma CreationIsAnswered(cfg: Config, service: Service, before: seq<Json>, call: Call, o: Outcome)
    requires Publishes(cfg, service, before, call, o) && o.post.Some?
    ensures
      var n := o.post.value;
      o.result ==
      match service.weather(n).trouble
      case Throttled(_) => Err(RateLimitFault)
      case Refused(code) => Err(StatusFault(code))
      case Dropped(_) => Err(TransportFault)
      case Garbled => Err(ResponseFault)
      case Fine =>
        if Strip(service.newId(n)) == "" || Strip(service.stamp(n)) == "" then Err(ResponseFault)
        else
          match cfg.parseTime(Strip(service.stamp(n)))
          case None => Err(ResponseFault)
          case Some(at) =>
            Ok(Receipt(
              service.issueKey, Strip(call.idempotencyKey), Strip(service.newId(n)), at,
              Some(cfg.hash(call.capability + "\0" + call.text))))
  {
    hide NewComment, Limited, CallFault, DocumentFor;
    NewCommentFields(service, o.post.value, BindingOf(cfg, call), DocumentFor(call));
  }

  /**
   The comment that a call creates says the call's text: within limits that cover it, its body is
   read back as the trimmed text.
   */
  lemma PostedTextIsReadBack(
    cfg: Config, service: Service, before: seq<Json>, call: Call, o: Outcome, fold: string -> string)
    requires Publishes(cfg, service, before, call, o) && o.post.Some? && TakesEffect(service.weather(o.post.value).trouble)
    ensures
      var after := After(cfg, service, before, call, o);
      && after == before + (o.seen + o.later) + [after[|after| - 1]]
      && var comment := after[|after| - 1];
         && comment.JObj? && "body" in comment.fields
         && JiraAdf.Parsed(
              comment.fields["body"], |Strip(call.text)| + 2, |Strip(call.text)|, fold)
            == Ok(JiraAdf.AdfDocument(Strip(call.text), map[]))
  {
    hide NewComment, Limited, BindingOf, JiraAdf.Parsed, JiraAdf.Printed, Strip;
    var b := BindingOf(cfg, call);
    NewCommentFields(service, o.post.value, b, DocumentFor(call));
    JiraAdf.RoundTripWithin(call.text, |Strip(call.text)| + 2, |Strip(call.text)|, fold);
  }

  /** What a caller can check before a call: rights, issue key, idempotency key and text. */
  predicate CallPasses(cfg: Config, service: Service, call: Call) {
    var key := Strip(call.idempotencyKey);
    && cfg.allowWrites && cfg.issueKeyOk(service.issueKey)
    && 1 <= |key| <= 256 && (forall i | 0 <= i < |key| :: !cfg.control(key[i]))
    && 1 <= |Strip(call.text)| <= 10_000
  }

  /** A call that does not pass sends nothing and says why; one that passes is never refused for these reasons. */
  lemma CallsAreChecked(cfg: Config, service: Service, before: seq<Json>, call: Call, o: Outcome)
    requires Publishes(cfg, service, before, call, o)
    ensures !CallPasses(cfg, service, call) ==>
              && o.seen == [] && o.later == [] && o.post.None?
              && o.result == Err(
                   if !cfg.allowWrites then CapabilityFault
                   else if !cfg.issueKeyOk(service.issueKey) then IssueKeyFault
                   else WriteFault)
    ensures CallPasses(cfg, service, call) && o.result.Err? ==>
              !o.result.error.CapabilityFault? && !o.result.error.IssueKeyFault? && !o.result.error.WriteFault?
  {
    hide Scan, Strip, NewComment, DocumentFor, ReceiptOf;
    if CallFault(cfg, service.issueKey, call).None? {
      LimitedFaults(cfg, service.issueKey, before + o.seen, service.pageSize, BindingOf(cfg, call));
      CreatedFaults(cfg, service, call, o);
    }
  }

  lemma CreatedFaults(cfg: Config, service: Service, call: Call, o: Outcome)
    ensures
      o.post.Some? ==>
        var b := BindingOf(cfg, call);
        var r := CreatedReceipt(cfg, service.issueKey, b, NewComment(service, o.post.value, b, DocumentFor(call)).fields);
        r.Err? ==> r.error.ResponseFault?
  {
  }

  /** A search raises only for a reuse or a response that cannot be read. */
  lemma {:induction false} ScanFaults(cfg: Config, issueKey: string, comments: seq<Json>, b: Binding)
    ensures
      var r := Scan(cfg, issueKey, comments, b);
      r.Err? ==> r.error.ReuseFault? || r.error.ResponseFault?
    decreases |comments|
  {
    hide Examine;
    if comments != [] {
      ExamineFaults(cfg, issueKey, comments[0], b);
      ScanFaults(cfg, issueKey, comments[1..], b);
    }
  }

  lemma ExamineFaults(cfg: Config, issueKey: string, comment: Json, b: Binding)
    ensures
      var r := Examine(cfg, issueKey, comment, b);
      r.Err? ==> r.error.ReuseFault? || r.error.ResponseFault?
  {
    if comment.JObj? && PropertiesOf(comment.fields).Some? {
      MatchFaults(PropertiesOf(comment.fields).value, b);
    }
  }

  lemma {:induction false} MatchFaults(properties: seq<Json>, b: Binding)
    ensures
      var r := MatchProperties(properties, b);
      r.Err? ==> r.error.ReuseFault?
    decreases |properties|
  {
    hide BoundValue, PropertyClaims;
    if properties != [] {
      MatchFaults(properties[1..], b);
    }
  }

  lemma LimitedFaults(cfg: Config, issueKey: string, comments: seq<Json>, pageSize: nat, b: Binding)
    ensures
      var r := Limited(cfg, issueKey, comments, pageSize, b);
      r.Err? ==> r.error.ReuseFault? || r.error.ResponseFault?
  {
    hide Scan;
    ScanFaults(cfg, issueKey, comments, b);
  }

  // ---------------------------------------------------------------- what a comment says about an operation

  /** A property of the name under which operations are bound. */
  predicate BindsSomething(property: Json) {
    property.JObj? && Get(property.fields, "key") == Some(JStr("gearmeshing-ai.idempotency-key"))
  }

  /** A comment that binds nothing, with or without a list of properties. */
  predicate Foreign(comment: Json) {
    && comment.JObj?
    && ("properties" in comment.fields ==>
          && comment.fields["properties"].JArr?
          && forall p | p in comment.fields["properties"].items :: !BindsSomething(p))
  }

  predicate Malformed(comment: Json) {
    !comment.JObj? || ("properties" in comment.fields && !comment.fields["properties"].JArr?)
  }

  lemma {:induction false} OthersMatchNothing(properties: seq<Json>, b: Binding)
    requires forall p | p in properties :: !BindsSomething(p)
    ensures MatchProperties(properties, b) == Ok(false)
  {
    if properties != [] {
      assert properties[0] in properties;
      OthersMatchNothing(properties[1..], b);
    }
  }

  /** Comments that bind nothing are passed over, and malformed ones end the search. */
  lemma ForeignIsPassedOver(cfg: Config, issueKey: string, comment: Json, b: Binding)
    ensures Foreign(comment) ==> Examine(cfg, issueKey, comment, b) == Ok(None)
    ensures Malformed(comment) ==> Examine(cfg, issueKey, comment, b) == Err(ResponseFault)
  {
    hide MatchProperties, BindsSomething, ReceiptOf;
    if Foreign(comment) {
      OthersMatchNothing(PropertiesOf(comment.fields).value, b);
    }
  }

  lemma {:induction false} AllForeign(cfg: Config, issueKey: string, comments: seq<Json>, b: Binding)
    requires forall c | c in comments :: Foreign(c)
    ensures Scan(cfg, issueKey, comments, b) == Ok(None)
  {
    hide Examine, Foreign;
    if comments != [] {
      assert comments[0] in comments;
      ForeignIsPassedOver(cfg, issueKey, comments[0], b);
      AllForeign(cfg, issueKey, comments[1..], b);
    }
  }

  /**
   On an issue whose comments bind nothing, at most ten pages of them, a call that passes its checks
   and whose search goes through creates its comment, and nothing else stops it.
   */
  lemma FirstCallCreates(cfg: Config, service: Service, before: seq<Json>, call: Call, o: Outcome)
    requires Publishes(cfg, service, before, call, o) && CallPasses(cfg, service, call)
    requires o.search.Some? ==> service.weather(o.search.value).trouble.Fine?
    requires |before + o.seen| <= 10 * service.pageSize && forall c | c in before + o.seen :: Foreign(c)
    ensures o.post.Some?
  {
    hide Strip, NewComment, DocumentFor, ReceiptOf, Scan, Foreign;
    AllForeign(cfg, service.issueKey, before + o.seen, BindingOf(cfg, call));
  }

  /** What one property says: it is this operation, it takes the key for another one, or it is silent. */
  lemma PropertyDecides(property: Json, b: Binding)
    ensures
      MatchProperties([property], b)
      == if !BindsSomething(property) || "value" !in property.fields then Ok(false)
         else
           var value := property.fields["value"];
           if value == JObj(map["idempotencyKey" := JStr(b.key), "operationDigest" := JStr(b.digest)]) then Ok(true)
           else if value == JStr(b.key) then Err(ReuseFault)
           else if value.JObj? && "idempotencyKey" in value.fields && value.fields["idempotencyKey"] == JStr(b.key)
           then Err(ReuseFault)
           else Ok(false)
  {
    assert MatchProperties([property][1..], b) == Ok(false);
  }

  // ---------------------------------------------------------------- how long a throttled request waits

  /** A usable number of seconds is obeyed to the letter. */
  lemma SecondsAreObeyed(cfg: Config, retryAfter: string, attempt: nat, seconds: real)
    requires Strip(retryAfter) != "" && cfg.parseSeconds(Strip(retryAfter)) == Some(seconds)
    requires 0.0 <= seconds <= cfg.maxRetryAfter
    ensures RetryDelay(cfg, retryAfter, attempt) == seconds
  {
  }

  /** Without usable seconds, a usable date is waited for, and one that has passed is not. */
  lemma DatesAreObeyed(cfg: Config, retryAfter: string, attempt: nat, left: real)
    requires Strip(retryAfter) != "" && cfg.parseSeconds(Strip(retryAfter)).None?
    requires cfg.untilDate(Strip(retryAfter)) == Some(left) && left <= cfg.maxRetryAfter
    ensures RetryDelay(cfg, retryAfter, attempt) == if left < 0.0 then 0.0 else left
  {
  }

  predicate Unusable(cfg: Config, retryAfter: string) {
    var raw := Strip(retryAfter);
    || raw == ""
    || (&& (cfg.parseSeconds(raw).Some? ==> !(0.0 <= cfg.parseSeconds(raw).value <= cfg.maxRetryAfter))
        && (cfg.untilDate(raw).Some? ==> cfg.untilDate(raw).value > cfg.maxRetryAfter))
  }

  /** Otherwise the delay starts at the base and doubles from attempt to attempt, up to the maximum. */
  lemma DelaysDouble(cfg: Config, retryAfter: string, again: string, attempt: nat)
    requires ConfigOk(cfg) && Unusable(cfg, retryAfter) && Unusable(cfg, again)
    ensures RetryDelay(cfg, retryAfter, 0) == if cfg.retryBase <= cfg.maxRetryAfter then cfg.retryBase else cfg.maxRetryAfter
    ensures
      var delay := RetryDelay(cfg, retryAfter, attempt);
      RetryDelay(cfg, again, attempt + 1) == if 2.0 * delay <= cfg.maxRetryAfter then 2.0 * delay else cfg.maxRetryAfter
  {
    hide Strip;
    Power2Positive(attempt);
    var factor := Power2(attempt) as real;
    assert Power2(attempt + 1) as real == 2.0 * factor;
    DoubledProduct(cfg.retryBase, factor);
    assert Power2(0) as real == 1.0;
  }

  lemma DoubledProduct(base: real, factor: real)
    ensures base * (2.0 * factor) == 2.0 * (base * factor)
    ensures base > 0.0 && factor > 0.0 ==> base * factor > 0.0
  {
  }
}
