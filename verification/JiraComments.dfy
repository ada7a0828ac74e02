/**
 Idempotent publication on a Jira issue: look for a comment that is already bound to the
 idempotency key, page by page, and create one only if there is none. The issue's comments are
 an append-only list that other people append to at any time; requests may be throttled,
 refused, or cut off before or after they took effect.
 */
module JiraComments {
  import opened Wrappers
  import opened Text
  import opened JsonValues
  import JiraAdf

  datatype JiraFault =
    | CapabilityFault
    | IssueKeyFault
    | WriteFault
    | ReuseFault
    | ResponseFault
    | RateLimitFault
    | StatusFault(code: int)
    | TransportFault

  /** The configuration, and the library functions that the provider calls. */
  datatype Config = Config(
    allowWrites: bool,
    maxRetries: nat,
    retryBase: real,
    maxRetryAfter: real,
    issueKeyOk: string -> bool,
    control: char -> bool,
    hash: string -> string,
    parseTime: string -> Option<int>,
    parseSeconds: string -> Option<real>,
    untilDate: string -> Option<real>)

  predicate ConfigOk(cfg: Config) {
    cfg.maxRetries <= 5 && cfg.retryBase > 0.0 && cfg.maxRetryAfter > 0.0
  }

  const PROPERTY := "gearmeshing-ai.idempotency-key"
  const MAX_PAGES := 10
  const PAGE_SIZE := 100

  /** An idempotency key, bound to the digest of one operation. */
  datatype Binding = Binding(key: string, digest: string)

  /** Only the receipt of the call that created the comment carries the digest of its operation. */
  datatype Receipt = Receipt(
    issueKey: string, idempotencyKey: string, reference: string, acceptedAt: int, digest: Option<string>)

  function BindingValue(b: Binding): Json {
    JObj(map["idempotencyKey" := JStr(b.key), "operationDigest" := JStr(b.digest)])
  }

  // ---------------------------------------------------------------- one comment

  /** The value of a property with our name; `None` for every other property. */
  function BoundValue(property: Json): Option<Json> {
    if property.JObj? && Get(property.fields, "key") == Some(JStr(PROPERTY)) then Get(property.fields, "value") else None
  }

  /** A value that claims the idempotency key, for whatever operation. */
  predicate Claims(value: Json, key: string) {
    value == JStr(key) || (value.JObj? && Get(value.fields, "idempotencyKey") == Some(JStr(key)))
  }

  predicate PropertyClaims(property: Json, key: string) {
    BoundValue(property).Some? && Claims(BoundValue(property).value, key)
  }

  /** The first property that claims the key decides: it is this operation, or a reuse. */
  function MatchProperties(properties: seq<Json>, b: Binding): Result<bool, JiraFault> {
    if properties == [] then Ok(false)
    else if BoundValue(properties[0]) == Some(BindingValue(b)) then Ok(true)
    else if PropertyClaims(properties[0], b.key) then Err(ReuseFault)
    else MatchProperties(properties[1..], b)
  }

  method MatchesIdempotencyBinding(properties: seq<Json>, b: Binding) returns (r: Result<bool, JiraFault>)
    ensures r == MatchProperties(properties, b)
  {
    var i := 0;
    while i < |properties|
      invariant 0 <= i <= |properties|
      invariant MatchProperties(properties, b) == MatchProperties(properties[i..], b)
    {
      assert properties[i..][1..] == properties[i + 1..];
      if BoundValue(properties[i]) == Some(BindingValue(b)) {
        return Ok(true);
      }
      if PropertyClaims(properties[i], b.key) {
        return Err(ReuseFault);
      }
      i := i + 1;
    }
    return Ok(false);
  }

  function RequiredText(fields: map<string, Json>, name: string): Result<string, JiraFault> {
    match Get(fields, name)
    case Some(JStr(text)) => if Strip(text) != "" then Ok(Strip(text)) else Err(ResponseFault)
    case _ => Err(ResponseFault)
  }

  function ReceiptOf(cfg: Config, issueKey: string, key: string, fields: map<string, Json>): Result<Receipt, JiraFault> {
    var reference :- RequiredText(fields, "id");
    var created :- RequiredText(fields, "created");
    match cfg.parseTime(created)
    case None => Err(ResponseFault)
    case Some(at) => Ok(Receipt(issueKey, key, reference, at, None))
  }

  /** The receipt of a comment that was just created. */
  function CreatedReceipt(cfg: Config, issueKey: string, b: Binding, fields: map<string, Json>): Result<Receipt, JiraFault> {
    var receipt :- ReceiptOf(cfg, issueKey, b.key, fields);
    Ok(receipt.(digest := Some(b.digest)))
  }

  function PropertiesOf(fields: map<string, Json>): Option<seq<Json>> {
    match Get(fields, "properties")
    case None => Some([])
    case Some(JArr(items)) => Some(items)
    case _ => None
  }

  /** What one comment says about a binding: its receipt, nothing, or an exception. */
  function Examine(cfg: Config, issueKey: string, comment: Json, b: Binding): Result<Option<Receipt>, JiraFault> {
    if !comment.JObj? || PropertiesOf(comment.fields).None? then Err(ResponseFault)
    else
      var matched :- MatchProperties(PropertiesOf(comment.fields).value, b);
      if !matched then Ok(None)
      else
        var receipt :- ReceiptOf(cfg, issueKey, b.key, comment.fields);
        Ok(Some(receipt))
  }

  /** The plain search: the first comment that says anything. */
  function Scan(cfg: Config, issueKey: string, comments: seq<Json>, b: Binding): Result<Option<Receipt>, JiraFault> {
    if comments == [] then Ok(None)
    else
      match Examine(cfg, issueKey, comments[0], b)
      case Ok(None) => Scan(cfg, issueKey, comments[1..], b)
      case decided => decided
  }

  lemma {:induction false} ScanAppend(cfg: Config, issueKey: string, a: seq<Json>, rest: seq<Json>, b: Binding)
    ensures
      Scan(cfg, issueKey, a + rest, b)
      == if Scan(cfg, issueKey, a, b) == Ok(None) then Scan(cfg, issueKey, rest, b) else Scan(cfg, issueKey, a, b)
  {
    hide Examine;
    if a == [] {
      assert a + rest == rest;
    } else {
      assert (a + rest)[1..] == a[1..] + rest;
      ScanAppend(cfg, issueKey, a[1..], rest, b);
    }
  }

  /** The paged search looks at ten pages; it knows whether that was all there is. */
  function Limited(cfg: Config, issueKey: string, comments: seq<Json>, pageSize: nat, b: Binding)
    : Result<Option<Receipt>, JiraFault>
  {
    var limit := MAX_PAGES * pageSize;
    if |comments| <= limit || Scan(cfg, issueKey, comments[..limit], b) != Ok(None)
    then Scan(cfg, issueKey, comments, b)
    else Err(ResponseFault)
  }

  // ---------------------------------------------------------------- the issue at the other end

  datatype Request = FetchPage(startAt: nat) | CreateComment(binding: Binding, document: Json)

  /** How a request fares; a dropped connection leaves open whether the request took effect. */
  datatype Trouble =
    | Fine
    | Throttled(retryAfter: string)
    | Refused(code: int)
    | Dropped(processed: bool)
    | Garbled

  /** What happens at a request: comments by others arrive before it, and how it fares. */
  datatype Weather = Weather(arrivals: seq<Json>, trouble: Trouble)

  datatype Service = Service(
    issueKey: string, pageSize: nat, weather: nat -> Weather, newId: nat -> string, stamp: nat -> string)

  /** Pages hold at least one comment and at most as many as are asked for. */
  predicate ServiceOk(service: Service) {
    1 <= service.pageSize <= PAGE_SIZE
  }

  function PageOf(comments: seq<Json>, startAt: nat, pageSize: nat): seq<Json>
    requires startAt <= |comments|
  {
    if startAt + pageSize <= |comments| then comments[startAt..startAt + pageSize] else comments[startAt..]
  }

  function PagePayload(comments: seq<Json>, startAt: nat, pageSize: nat): Json {
    JObj(map[
      "comments" := JArr(if startAt <= |comments| then PageOf(comments, startAt, pageSize) else []),
      "total" := JNum(|comments| as real)])
  }

  /** The comment that the `n`-th request creates. */
  function NewComment(service: Service, n: nat, b: Binding, document: Json): Json {
    JObj(map[
      "id" := JStr(service.newId(n)),
      "created" := JStr(service.stamp(n)),
      "body" := document,
      "properties" := JArr([JObj(map["key" := JStr(PROPERTY), "value" := BindingValue(b)])])])
  }

  predicate TakesEffect(trouble: Trouble) {
    trouble.Fine? || trouble == Dropped(true) || trouble.Garbled?
  }

  function Created(service: Service, n: nat, request: Request): seq<Json> {
    if request.CreateComment? && TakesEffect(service.weather(n).trouble)
    then [NewComment(service, n, request.binding, request.document)]
    else []
  }

  function Payload(service: Service, comments: seq<Json>, n: nat, request: Request): Json {
    match request
    case FetchPage(startAt) => PagePayload(comments, startAt, service.pageSize)
    case CreateComment(binding, document) => NewComment(service, n, binding, document)
  }

  datatype Reply = Busy(retryAfter: string) | Status(code: int) | NoResponse | Unreadable | Success(payload: Json)

  function ReplyTo(service: Service, comments: seq<Json>, n: nat, request: Request): Reply {
    match service.weather(n).trouble
    case Fine => Success(Payload(service, comments, n, request))
    case Throttled(retryAfter) => Busy(retryAfter)
    case Refused(code) => Status(code)
    case Dropped(_) => NoResponse
    case Garbled => Unreadable
  }

  class JiraIssue {
    const service: Service
    var comments: seq<Json>
    var requests: nat

    constructor (service: Service, comments: seq<Json>)
      ensures this.service == service && this.comments == comments && requests == 0
    {
      this.service := service;
      this.comments := comments;
      requests := 0;
    }

    method Handle(request: Request) returns (reply: Reply)
      modifies this
      ensures requests == old(requests) + 1
      ensures comments == old(comments) + service.weather(old(requests)).arrivals + Created(service, old(requests), request)
      ensures reply == ReplyTo(service, comments, old(requests), request)
    {
      comments := comments + service.weather(requests).arrivals + Created(service, requests, request);
      reply := ReplyTo(service, comments, requests, request);
      requests := requests + 1;
    }
  }

  // ---------------------------------------------------------------- retrying one request

  function Power2(n: nat): nat {
    if n == 0 then 1 else 2 * Power2(n - 1)
  }

  /** How long to wait after being throttled: `Retry-After` if it is usable, else a doubling delay. */
  function RetryDelay(cfg: Config, retryAfter: string, attempt: nat): real {
    var raw := Strip(retryAfter);
    var seconds := if raw == "" then None else cfg.parseSeconds(raw);
    var date := if raw == "" then None else cfg.untilDate(raw);
    if seconds.Some? && 0.0 <= seconds.value <= cfg.maxRetryAfter then seconds.value
    else if date.Some? && date.value <= cfg.maxRetryAfter then (if date.value < 0.0 then 0.0 else date.value)
    else
      var doubled := cfg.retryBase * (Power2(attempt) as real);
      if doubled <= cfg.maxRetryAfter then doubled else cfg.maxRetryAfter
  }

  lemma {:induction false} Power2Positive(n: nat)
    ensures Power2(n) >= 1
  {
    if n > 0 {
      Power2Positive(n - 1);
    }
  }

  /** A server can make the client wait, but never longer than configured, whatever it sends. */
  lemma RetryDelayIsBounded(cfg: Config, retryAfter: string, attempt: nat)
    requires ConfigOk(cfg)
    ensures 0.0 <= RetryDelay(cfg, retryAfter, attempt) <= cfg.maxRetryAfter
    ensures Strip(retryAfter) == "" ==> RetryDelay(cfg, retryAfter, attempt) > 0.0
  {
    Power2Positive(attempt);
    var factor := Power2(attempt) as real;
    assert cfg.retryBase * factor > 0.0;
  }

  /** The waits after the throttled requests `first`, …, `end - 1`, the attempts counted from `first`. */
  function Waits(cfg: Config, service: Service, first: nat, end: nat): (r: seq<real>)
    requires first <= end
    ensures |r| == end - first
    ensures forall i | 0 <= i < |r| :: r[i] == WaitAfter(cfg, service, first + i, i)
  {
    seq(end - first, i requires 0 <= i < end - first => WaitAfter(cfg, service, first + i, i))
  }

  lemma WaitsAreBounded(cfg: Config, service: Service, first: nat, end: nat)
    requires ConfigOk(cfg) && first <= end
    ensures forall w | w in Waits(cfg, service, first, end) :: 0.0 <= w <= cfg.maxRetryAfter
  {
    forall i | 0 <= i < end - first
      ensures 0.0 <= Waits(cfg, service, first, end)[i] <= cfg.maxRetryAfter
    {
      if service.weather(first + i).trouble.Throttled? {
        RetryDelayIsBounded(cfg, service.weather(first + i).trouble.retryAfter, i);
      }
    }
  }

  function WaitAfter(cfg: Config, service: Service, n: nat, attempt: nat): real {
    match service.weather(n).trouble
    case Throttled(retryAfter) => RetryDelay(cfg, retryAfter, attempt)
    case _ => 0.0
  }

  /** Comments by others that arrived at the requests `first`, …, `end - 1`. */
  function Arrivals(service: Service, first: nat, end: nat): seq<Json>
    requires first <= end
    decreases end
  {
    if first == end then [] else Arrivals(service, first, end - 1) + service.weather(end - 1).arrivals
  }

  /** The exception for a request that did not end well. */
  function FaultOf(trouble: Trouble): JiraFault {
    match trouble
    case Throttled(_) => RateLimitFault
    case Refused(code) => StatusFault(code)
    case Dropped(_) => TransportFault
    case _ => ResponseFault
  }

  // ---------------------------------------------------------------- publishing

  datatype Call = Call(capability: string, idempotencyKey: string, text: string)

  /** What a call is bound to: its key, and the digest of its capability and text. */
  function BindingOf(cfg: Config, call: Call): Binding {
    Binding(Strip(call.idempotencyKey), cfg.hash(call.capability + "\0" + call.text))
  }

  predicate KeyOk(cfg: Config, key: string) {
    1 <= |key| <= 256 && forall i | 0 <= i < |key| :: !cfg.control(key[i])
  }

  /** The checks that a call must pass before anything is sent. */
  function CallFault(cfg: Config, issueKey: string, call: Call): Option<JiraFault> {
    if !cfg.allowWrites then Some(CapabilityFault)
    else if !cfg.issueKeyOk(issueKey) then Some(IssueKeyFault)
    else if !KeyOk(cfg, Strip(call.idempotencyKey)) then Some(WriteFault)
    else if JiraAdf.Printed(call.text).Err? then Some(WriteFault)
    else None
  }

  /**
   One call, seen from outside: the comments of others that arrived before its search ended and
   after, the numbers of the last request of the search and of the request to create, if they were
   sent, and what the caller got.
   */
  datatype Outcome = Outcome(
    seen: seq<Json>, later: seq<Json>, search: Option<nat>, post: Option<nat>, result: Result<Receipt, JiraFault>)

  function After(cfg: Config, service: Service, before: seq<Json>, call: Call, o: Outcome): seq<Json> {
    before + (o.seen + o.later) + PostedComments(cfg, service, call, o)
  }

  /** The document that a call that passes its checks publishes. */
  function DocumentFor(call: Call): Json {
    match JiraAdf.Printed(call.text) case Ok(document) => document case Err(_) => JNull
  }

  /** The comment that the call added, if it did. */
  function PostedComments(cfg: Config, service: Service, call: Call, o: Outcome): seq<Json> {
    match o.post
    case None => []
    case Some(n) => Created(service, n, CreateComment(BindingOf(cfg, call), DocumentFor(call)))
  }

  /**
   How a call relates to the comments that it found. A search whose last request did not go through
   ends the call; otherwise it decides, and a creation follows exactly when it found nothing.
   */
  predicate Publishes(cfg: Config, service: Service, before: seq<Json>, call: Call, o: Outcome) {
    match CallFault(cfg, service.issueKey, call)
    case Some(fault) => o == Outcome([], [], None, None, Err(fault))
    case None =>
      && o.search.Some?
      && var trouble := service.weather(o.search.value).trouble;
         if !trouble.Fine? then o.later == [] && o.post.None? && o.result == Err(FaultOf(trouble))
         else Decides(cfg, service, before, call, o)
  }

  /** A search that went through decides. */
  predicate Decides(cfg: Config, service: Service, before: seq<Json>, call: Call, o: Outcome) {
    var b := BindingOf(cfg, call);
    match Limited(cfg, service.issueKey, before + o.seen, service.pageSize, b)
    case Err(fault) => o.later == [] && o.post.None? && o.result == Err(fault)
    case Ok(Some(receipt)) => o.later == [] && o.post.None? && o.result == Ok(receipt)
    case Ok(None) =>
      && o.post.Some?
      && var n := o.post.value;
         var trouble := service.weather(n).trouble;
         o.result == if trouble.Fine?
                     then CreatedReceipt(cfg, service.issueKey, b, NewComment(service, n, b, DocumentFor(call)).fields)
                     else Err(FaultOf(trouble))
  }

  /** The requests of a call were sent during it, and the last of them is the creation, or ended the search. */
  predicate Numbered(o: Outcome, first: nat, end: nat) {
    && first <= end
    && (o.search.None? ==> end == first && o.post.None?)
    && (o.search.Some? ==> first <= o.search.value < end)
    && (o.search.Some? && o.post.None? ==> o.search.value == end - 1)
    && (o.search.Some? && o.post.Some? ==> o.search.value < o.post.value == end - 1)
  }

  lemma NewCommentIsObject(service: Service, n: nat, b: Binding, document: Json)
    ensures NewComment(service, n, b, document).JObj?
  {
  }

  lemma NoArrivals(service: Service, n: nat)
    ensures Arrivals(service, n, n) == []
  {
  }

  class JiraProvider {
    const cfg: Config
    var slept: seq<real>

    constructor (cfg: Config)
      ensures this.cfg == cfg && slept == []
    {
      this.cfg := cfg;
      slept := [];
    }

    /**
     Sends a request until it is not throttled, at most `maxRetries + 1` times. All attempts
     but the last were throttled, so only the last can have taken effect.
     */
    method RequestJson(issue: JiraIssue, request: Request) returns (r: Result<Json, JiraFault>)
      requires ConfigOk(cfg)
      modifies this, issue
      ensures old(issue.requests) < issue.requests <= old(issue.requests) + cfg.maxRetries + 1
      ensures forall n | old(issue.requests) <= n < issue.requests - 1 :: issue.service.weather(n).trouble.Throttled?
      ensures var n := issue.requests - 1;
              && issue.comments ==
                 old(issue.comments) + Arrivals(issue.service, old(issue.requests), issue.requests)
                 + Created(issue.service, n, request)
              && r == if issue.service.weather(n).trouble.Fine?
                      then Ok(Payload(issue.service, issue.comments, n, request))
                      else Err(FaultOf(issue.service.weather(n).trouble))
      ensures r == Err(RateLimitFault) ==> issue.requests == old(issue.requests) + cfg.maxRetries + 1
      ensures slept == old(slept) + Waits(cfg, issue.service, old(issue.requests), issue.requests - 1)
      ensures forall w | w in slept[|old(slept)|..] :: 0.0 <= w <= cfg.maxRetryAfter
    {
      hide RetryDelay, NewComment, PagePayload;
      var attempt := 0;
      while true
        invariant 0 <= attempt <= cfg.maxRetries && issue.requests == old(issue.requests) + attempt
        invariant forall n | old(issue.requests) <= n < issue.requests :: issue.service.weather(n).trouble.Throttled?
        invariant issue.comments == old(issue.comments) + Arrivals(issue.service, old(issue.requests), issue.requests)
        invariant slept == old(slept) + Waits(cfg, issue.service, old(issue.requests), issue.requests)
        decreases cfg.maxRetries - attempt
      {
        var reply := issue.Handle(request);
        WaitsAreBounded(cfg, issue.service, old(issue.requests), issue.requests - 1);
        match reply
        case Busy(retryAfter) =>
          if attempt == cfg.maxRetries {
            return Err(RateLimitFault);
          }
          slept := slept + [RetryDelay(cfg, retryAfter, attempt)];
          attempt := attempt + 1;
        case Status(code) => return Err(StatusFault(code));
        case NoResponse => return Err(TransportFault);
        case Unreadable => return Err(ResponseFault);
        case Success(payload) => return Ok(payload);
      }
    }

    method ReceiptForMatchingComment(issue: JiraIssue, comment: Json, b: Binding)
      returns (r: Result<Option<Receipt>, JiraFault>)
      ensures r == Examine(cfg, issue.service.issueKey, comment, b)
    {
      if !comment.JObj? || PropertiesOf(comment.fields).None? {
        return Err(ResponseFault);
      }
      var matched := MatchesIdempotencyBinding(PropertiesOf(comment.fields).value, b);
      if matched.Err? {
        return Err(matched.error);
      }
      if !matched.value {
        return Ok(None);
      }
      var receipt := ReceiptOf(cfg, issue.service.issueKey, b.key, comment.fields);
      if receipt.Err? {
        return Err(receipt.error);
      }
      return Ok(Some(receipt.value));
    }

    /** One page, comment by comment. */
    method ScanPage(issue: JiraIssue, page: seq<Json>, b: Binding) returns (r: Result<Option<Receipt>, JiraFault>)
      ensures r == Scan(cfg, issue.service.issueKey, page, b)
    {
      hide Examine;
      var i := 0;
      while i < |page|
        invariant 0 <= i <= |page|
        invariant Scan(cfg, issue.service.issueKey, page, b) == Scan(cfg, issue.service.issueKey, page[i..], b)
      {
        assert page[i..][1..] == page[i + 1..];
        r := ReceiptForMatchingComment(issue, page[i], b);
        if r != Ok(None) {
          return;
        }
        i := i + 1;
      }
      return Ok(None);
    }

    /** One page of comments, and how many comments there are. */
    method FetchCommentPage(issue: JiraIssue, startAt: nat) returns (r: Result<(seq<Json>, int), JiraFault>)
      requires ConfigOk(cfg) && startAt <= |issue.comments|
      modifies this, issue
      ensures old(issue.requests) < issue.requests
      ensures Grown(issue.service, old(issue.comments), old(issue.requests), issue.comments, issue.requests)
      ensures var trouble := issue.service.weather(issue.requests - 1).trouble;
              r == if trouble.Fine?
                   then Ok((PageOf(issue.comments, startAt, issue.service.pageSize), |issue.comments|))
                   else Err(FaultOf(trouble))
    {
      hide Arrivals, PageOf;
      var payload := RequestJson(issue, FetchPage(startAt));
      if payload.Err? {
        return Err(payload.error);
      }
      PageIsDecoded(issue.comments, startAt, issue.service.pageSize);
      var fields := payload.value.fields;
      return Ok((fields["comments"].items, fields["total"].number.Floor));
    }

    /** One page of the search: an answer, or, if `done` is not set, where the next page starts. */
    method SearchFrom(issue: JiraIssue, startAt: nat, b: Binding)
      returns (r: Result<Option<Receipt>, JiraFault>, next: nat, done: bool)
      requires ConfigOk(cfg) && ServiceOk(issue.service)
      requires startAt + issue.service.pageSize <= MAX_PAGES * issue.service.pageSize
      requires Cleared(cfg, issue.service.issueKey, issue.comments, startAt, b)
      modifies this, issue
      ensures old(issue.requests) < issue.requests
      ensures Grown(issue.service, old(issue.comments), old(issue.requests), issue.comments, issue.requests)
      ensures var trouble := issue.service.weather(issue.requests - 1).trouble;
              if !trouble.Fine? then done && r == Err(FaultOf(trouble))
              else if done then r == Limited(cfg, issue.service.issueKey, issue.comments, issue.service.pageSize, b)
              else
                && next == startAt + issue.service.pageSize < |issue.comments|
                && Cleared(cfg, issue.service.issueKey, issue.comments, next, b)
    {
      hide Examine, Scan, Limited, PageOf, Arrivals;
      ghost var before := issue.comments;
      var fetched := FetchCommentPage(issue, startAt);
      next := startAt;
      if fetched.Err? {
        return Err(fetched.error), next, true;
      }
      SearchPage(cfg, issue.service.issueKey, before, issue.comments, startAt, issue.service.pageSize, b);
      next := startAt + |fetched.value.0|;
      r := ScanPage(issue, fetched.value.0, b);
      done := r != Ok(None) || next >= fetched.value.1 || fetched.value.0 == [];
    }

    /**
     The paged search. If its last request went through, the result is that of the plain search
     through all comments there are by then, but for the limit of ten pages.
     */
    method FindComment(issue: JiraIssue, b: Binding) returns (r: Result<Option<Receipt>, JiraFault>)
      requires ConfigOk(cfg) && ServiceOk(issue.service)
      modifies this, issue
      ensures old(issue.requests) < issue.requests
      ensures Grown(issue.service, old(issue.comments), old(issue.requests), issue.comments, issue.requests)
      ensures var trouble := issue.service.weather(issue.requests - 1).trouble;
              r == if trouble.Fine?
                   then Limited(cfg, issue.service.issueKey, issue.comments, issue.service.pageSize, b)
                   else Err(FaultOf(trouble))
    {
      var startAt := 0;
      var page := 0;
      NothingSearched(cfg, issue.service, issue.comments, issue.requests, b);
      hide Limited, Grown, PageStart, Cleared, FaultOf;
      while page < MAX_PAGES
        invariant 0 <= page <= MAX_PAGES && startAt == PageStart(page, issue.service.pageSize)
        invariant page > 0 ==>
                    && startAt < |issue.comments| && old(issue.requests) < issue.requests
                    && issue.service.weather(issue.requests - 1).trouble.Fine?
        invariant Grown(issue.service, old(issue.comments), old(issue.requests), issue.comments, issue.requests)
        invariant Cleared(cfg, issue.service.issueKey, issue.comments, startAt, b)
      {
        ghost var before, first := issue.comments, issue.requests;
        NextPageStart(page, issue.service.pageSize);
        var done;
        r, startAt, done := SearchFrom(issue, startAt, b);
        GrownThen(issue.service, old(issue.comments), old(issue.requests), before, first, issue.comments, issue.requests);
        if done {
          return;
        }
        page := page + 1;
      }
      LastPage(issue.service.pageSize);
      LimitReached(cfg, issue.service.issueKey, issue.comments, issue.service.pageSize, b);
      return Err(ResponseFault);
    }

    /**
     Publishes a comment unless one is already bound to the key: at most one request to create,
     and only after a search that came to the end of the list without meeting the key.
     */
    method PublishComment(issue: JiraIssue, call: Call) returns (r: Result<Receipt, JiraFault>, ghost outcome: Outcome)
      requires ConfigOk(cfg) && ServiceOk(issue.service)
      modifies this, issue
      ensures r == outcome.result && Publishes(cfg, issue.service, old(issue.comments), call, outcome)
      ensures issue.comments == After(cfg, issue.service, old(issue.comments), call, outcome)
      ensures Numbered(outcome, old(issue.requests), issue.requests)
      ensures outcome.seen + outcome.later == Arrivals(issue.service, old(issue.requests), issue.requests)
    {
      hide Limited, Arrivals, NewComment, JiraAdf.Printed;
      var fault := CallFault(cfg, issue.service.issueKey, call);
      if fault.Some? {
        NoArrivals(issue.service, issue.requests);
        return Err(fault.value), Outcome([], [], None, None, Err(fault.value));
      }
      var binding := BindingOf(cfg, call);
      var existing := FindComment(issue, binding);
      ghost var middle, search := issue.requests, Some(issue.requests - 1);
      ghost var seen := Arrivals(issue.service, old(issue.requests), middle);
      if existing.Err? {
        return Err(existing.error), Outcome(seen, [], search, None, Err(existing.error));
      }
      if existing.value.Some? {
        return Ok(existing.value.value), Outcome(seen, [], search, None, Ok(existing.value.value));
      }
      var payload := RequestJson(issue, CreateComment(binding, DocumentFor(call)));
      ghost var n := issue.requests - 1;
      ghost var later := Arrivals(issue.service, middle, issue.requests);
      ArrivalsThen(issue.service, old(issue.requests), middle, issue.requests);
      if payload.Err? {
        return Err(payload.error), Outcome(seen, later, search, Some(n), Err(payload.error));
      }
      NewCommentIsObject(issue.service, n, binding, DocumentFor(call));
      r := CreatedReceipt(cfg, issue.service.issueKey, binding, payload.value.fields);
      outcome := Outcome(seen, later, search, Some(n), r);
    }
  }

  /** The list has grown by exactly the comments of others that arrived at these requests. */
  predicate Grown(service: Service, before: seq<Json>, first: nat, after: seq<Json>, end: nat) {
    first <= end && after == before + Arrivals(service, first, end)
  }

  /** Nothing in the first `n` comments concerns the binding. */
  predicate Cleared(cfg: Config, issueKey: string, comments: seq<Json>, n: nat, b: Binding) {
    n <= |comments| && Scan(cfg, issueKey, comments[..n], b) == Ok(None)
  }

  lemma NothingSearched(cfg: Config, service: Service, comments: seq<Json>, requests: nat, b: Binding)
    ensures Grown(service, comments, requests, comments, requests)
    ensures Cleared(cfg, service.issueKey, comments, 0, b) && PageStart(0, service.pageSize) == 0
  {
  }

  lemma GrownThen(
    service: Service, c0: seq<Json>, n0: nat, c1: seq<Json>, n1: nat, c2: seq<Json>, n2: nat)
    requires Grown(service, c0, n0, c1, n1) && Grown(service, c1, n1, c2, n2)
    ensures Grown(service, c0, n0, c2, n2) && c1 <= c2
  {
    ArrivalsThen(service, n0, n1, n2);
  }

  /** What one more page tells about the whole search. */
  lemma SearchPage(
    cfg: Config, issueKey: string, before: seq<Json>, comments: seq<Json>, startAt: nat, pageSize: nat, b: Binding)
    requires Cleared(cfg, issueKey, before, startAt, b) && before <= comments
    requires startAt + pageSize <= MAX_PAGES * pageSize
    ensures
      var page := PageOf(comments, startAt, pageSize);
      var next := startAt + |page|;
      && next <= |comments| && (next < |comments| ==> next == startAt + pageSize)
      && (if Scan(cfg, issueKey, page, b) == Ok(None) then
            && Cleared(cfg, issueKey, comments, next, b)
            && (next == |comments| ==> Limited(cfg, issueKey, comments, pageSize, b) == Ok(None))
          else Limited(cfg, issueKey, comments, pageSize, b) == Scan(cfg, issueKey, page, b))
  {
    hide Examine, Scan;
    var page := PageOf(comments, startAt, pageSize);
    var next := startAt + |page|;
    assert comments[..startAt] == before[..startAt];
    assert comments[..next] == comments[..startAt] + page;
    ScanAppend(cfg, issueKey, comments[..startAt], page, b);
    if Scan(cfg, issueKey, page, b) != Ok(None) {
      DecidedEarly(cfg, issueKey, comments, next, pageSize, b);
    } else if next == |comments| {
      assert comments[..next] == comments;
    }
  }

  lemma PageIsDecoded(comments: seq<Json>, startAt: nat, pageSize: nat)
    requires startAt <= |comments|
    ensures
      var payload := PagePayload(comments, startAt, pageSize);
      && payload.JObj? && "comments" in payload.fields && "total" in payload.fields
      && payload.fields["comments"] == JArr(PageOf(comments, startAt, pageSize))
      && payload.fields["total"].JNum? && payload.fields["total"].number.Floor == |comments|
  {
    assert |"comments"| == 8 && |"total"| == 5;
  }

  function PageStart(page: nat, pageSize: nat): nat {
    page * pageSize
  }

  lemma NextPageStart(page: nat, pageSize: nat)
    requires page < MAX_PAGES
    ensures PageStart(page + 1, pageSize) == PageStart(page, pageSize) + pageSize <= MAX_PAGES * pageSize
  {
    assert (MAX_PAGES - (page + 1)) * pageSize >= 0;
  }

  lemma LastPage(pageSize: nat)
    ensures PageStart(MAX_PAGES, pageSize) == MAX_PAGES * pageSize
  {
  }

  lemma LimitReached(cfg: Config, issueKey: string, comments: seq<Json>, pageSize: nat, b: Binding)
    requires |comments| > MAX_PAGES * pageSize && Cleared(cfg, issueKey, comments, MAX_PAGES * pageSize, b)
    ensures Limited(cfg, issueKey, comments, pageSize, b) == Err(ResponseFault)
  {
  }

  lemma {:induction false} ArrivalsThen(service: Service, first: nat, middle: nat, end: nat)
    requires first <= middle <= end
    ensures Arrivals(service, first, end) == Arrivals(service, first, middle) + Arrivals(service, middle, end)
    decreases end
  {
    if middle < end {
      ArrivalsThen(service, first, middle, end - 1);
    }
  }

  /** What is decided within a prefix of the ten pages is the result of the whole search. */
  lemma DecidedEarly(cfg: Config, issueKey: string, comments: seq<Json>, n: nat, pageSize: nat, b: Binding)
    requires n <= |comments| && n <= MAX_PAGES * pageSize && Scan(cfg, issueKey, comments[..n], b) != Ok(None)
    ensures Limited(cfg, issueKey, comments, pageSize, b) == Scan(cfg, issueKey, comments[..n], b)
  {
    hide Examine, Scan;
    var limit := MAX_PAGES * pageSize;
    assert comments == comments[..n] + comments[n..];
    ScanAppend(cfg, issueKey, comments[..n], comments[n..], b);
    if limit < |comments| {
      assert comments[..limit] == comments[..n] + comments[n..limit];
      ScanAppend(cfg, issueKey, comments[..n], comments[n..limit], b);
    }
  }
}
