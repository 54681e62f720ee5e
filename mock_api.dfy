/**
 * The end-to-end mock of the issue tracker's GraphQL endpoint. It answers every query with a
 * canned response, records each request it answers in an in-memory store shared by every app
 * it creates, and exposes the store for assertions and for resetting.
 */
module MockApi {
  import opened Wrappers
  import opened Json
  import Text

  datatype CallType = Mutation | Query

  /** One request as the store keeps it: its kind, its operation name (`null` when absent), the whole body and when it came. */
  datatype RecordedCall = RecordedCall(callType: CallType, operationName: Json, body: Json, timestamp: string)

  datatype HttpResponse = HttpResponse(status: int, body: Json)

  function TypeName(t: CallType): string {
    match t
    case Mutation => "mutation"
    case Query => "query"
  }

  /** A recorded call as the assertions endpoint sends it. */
  function RecordedCallJson(c: RecordedCall): Json {
    JObj([("type", JStr(TypeName(c.callType))), ("operationName", c.operationName),
          ("body", c.body), ("timestamp", JStr(c.timestamp))])
  }

  function CallsJson(calls: seq<RecordedCall>): (r: Json)
    ensures r.JArr? && |r.items| == |calls|
    ensures forall i :: 0 <= i < |calls| ==> r.items[i] == RecordedCallJson(calls[i])
  {
    JArr(seq(|calls|, i requires 0 <= i < |calls| => RecordedCallJson(calls[i])))
  }

  // ---- Recognising a mutation (`/^\s*mutation\b/i`) -----------------------------------

  /** The characters `\w` matches without the Unicode flag. */
  predicate IsWordChar(c: char) {
    'a' <= c <= 'z' || 'A' <= c <= 'Z' || '0' <= c <= '9' || c == '_'
  }

  /** The case folding the `i` flag applies to the letters of "mutation": ASCII only. */
  function LowerChar(c: char): char {
    if 'A' <= c <= 'Z' then (c as int + 32) as char else c
  }

  function Lower(s: string): (r: string)
    ensures |r| == |s|
    ensures forall i :: 0 <= i < |s| ==> r[i] == LowerChar(s[i])
  {
    seq(|s|, i requires 0 <= i < |s| => LowerChar(s[i]))
  }

  /** The keyword starts at `k`, in any case, and no word character follows it (the `\b`). */
  predicate KeywordAt(s: string, k: nat) {
    k + 8 <= |s| && Lower(s[k..k + 8]) == "mutation" && (k + 8 == |s| || !IsWordChar(s[k + 8]))
  }

  /** What the regular expression accepts: some run of white space, then the keyword. */
  ghost predicate MatchesMutationPattern(s: string) {
    exists k: nat :: k <= |s| && (forall i :: 0 <= i < k ==> Text.IsJsSpace(s[i])) && KeywordAt(s, k)
  }

  /** `isMutation`: the keyword right after the leading white space. */
  function IsMutation(query: string): bool {
    KeywordAt(query, |query| - |Text.TrimStart(query, Text.IsJsSpace)|)
  }

  /** The keyword cannot start with white space, so the run of white space before it is the whole leading run. */
  lemma IsMutationIffPattern(query: string)
    ensures IsMutation(query) <==> MatchesMutationPattern(query)
  {
    var t := Text.TrimStart(query, Text.IsJsSpace);
    var k := |query| - |t|;
    if IsMutation(query) {
      assert forall i :: 0 <= i < k ==> Text.IsJsSpace(query[i]);
    }
    if MatchesMutationPattern(query) {
      var j: nat :| j <= |query| && (forall i :: 0 <= i < j ==> Text.IsJsSpace(query[i])) && KeywordAt(query, j);
      assert LowerChar(query[j]) == Lower(query[j..j + 8])[0] == 'm';
      assert !Text.IsJsSpace(query[j]);
      assert j == k;
    }
  }

  /** The keyword followed by white space or a brace is a mutation, whatever comes after. */
  lemma KeywordThenSeparator(lead: string, keyword: string, sep: char, rest: string)
    requires forall i :: 0 <= i < |lead| ==> Text.IsJsSpace(lead[i])
    requires Lower(keyword) == "mutation" && !IsWordChar(sep)
    ensures IsMutation(lead + keyword + [sep] + rest)
  {
    var s := lead + keyword + [sep] + rest;
    assert s[|lead|..|lead| + 8] == keyword;
    assert s[|lead| + 8] == sep;
    assert forall i :: 0 <= i < |lead| ==> Text.IsJsSpace(s[i]);
    assert KeywordAt(s, |lead|);
    assert MatchesMutationPattern(s);
    IsMutationIffPattern(s);
  }

  /** A longer word that merely starts with the keyword is not a mutation (`mutations`, `mutation_x`). */
  lemma LongerWordIsQuery(keyword: string, c: char, rest: string)
    requires Lower(keyword) == "mutation" && IsWordChar(c)
    ensures !IsMutation(keyword + [c] + rest)
  {
    var s := keyword + [c] + rest;
    assert LowerChar(s[0]) == 'm';
    assert !Text.IsJsSpace(s[0]);
    assert Text.TrimStart(s, Text.IsJsSpace) == s;
    assert s[8] == c;
  }

  // ---- Canned responses -----------------------------------------------------------------

  const MockCommentId: string := "mock-comment-id"
  const MockIssueId: string := "mock-issue-id"

  function CommentCreatedResponse(): Json {
    Obj1("data", Obj1("commentCreate", JObj([
      ("success", JBool(true)),
      ("comment", JObj([("id", JStr(MockCommentId)), ("body", JStr("mock comment body")),
                        ("url", JStr("https://linear.app/mock/comment/mock-comment-id"))]))])))
  }

  function IssueFixture(): Json {
    JObj([
      ("id", JStr(MockIssueId)),
      ("identifier", JStr("MOCK-1")),
      ("title", JStr("Mock Issue Title")),
      ("description", JStr("Mock issue description for e2e testing")),
      ("state", JObj([("name", JStr("In Progress")), ("type", JStr("started"))])),
      ("priority", JNum(2)),
      ("priorityLabel", JStr("High")),
      ("labels", Obj1("nodes", JArr([]))),
      ("assignee", JNull),
      ("url", JStr("https://linear.app/mock/issue/MOCK-1")),
      ("createdAt", JStr("2025-01-01T00:00:00.000Z")),
      ("updatedAt", JStr("2025-01-01T00:00:00.000Z"))])
  }

  /** The operation names that get the comment fixture, compared strictly (only these two strings). */
  predicate IsCreateComment(operationName: Json) {
    operationName == JStr("createComment") || operationName == JStr("CreateComment")
  }

  /** The operation names that get the issue fixture. */
  predicate IsIssueQuery(operationName: Json) {
    operationName == JStr("issue") || operationName == JStr("Issue") || operationName == JStr("GetIssue")
  }

  /** `buildMutationResponse`: the created comment for a comment creation, a bare success otherwise. */
  function MutationResponse(operationName: Json): Json {
    if IsCreateComment(operationName) then CommentCreatedResponse()
    else Obj1("data", Obj1("mutationResult", Obj1("success", JBool(true))))
  }

  /** `buildQueryResponse`: the issue fixture for an issue query, empty data otherwise. */
  function QueryResponse(operationName: Json): Json {
    if IsIssueQuery(operationName) then Obj1("data", Obj1("issue", IssueFixture()))
    else Obj1("data", JObj([]))
  }

  /** `data` of a response, then one member of it. */
  function DataMember(response: Json, key: string): Option<Json> {
    match Get(response, "data")
    case None => None
    case Some(data) => Get(data, key)
  }

  /**
   * A mutation's answer carries a created comment exactly for the two comment-creation names,
   * and then it is the mock comment; every other mutation gets a bare success.
   */
  lemma MutationAnswers(operationName: Json)
    ensures DataMember(MutationResponse(operationName), "commentCreate").Some? <==> IsCreateComment(operationName)
    ensures DataMember(MutationResponse(operationName), "mutationResult").Some? <==> !IsCreateComment(operationName)
    ensures IsCreateComment(operationName) ==>
              var created := DataMember(MutationResponse(operationName), "commentCreate").value;
              && Get(created, "success") == Some(JBool(true))
              && Get(created, "comment").Some?
              && Get(Get(created, "comment").value, "id") == Some(JStr(MockCommentId))
  {
    if IsCreateComment(operationName) {
      var created := DataMember(MutationResponse(operationName), "commentCreate").value;
      LookupFindsLast(created.members, 0);
      LookupFindsLast(created.members, 1);
      LookupFindsLast(created.members[1].1.members, 0);
    }
  }

  /**
   * A query's answer carries an issue exactly for the three issue names, and then it is the
   * fixture; every other query gets an object with empty data.
   */
  lemma QueryAnswers(operationName: Json)
    ensures DataMember(QueryResponse(operationName), "issue").Some? <==> IsIssueQuery(operationName)
    ensures IsIssueQuery(operationName) ==>
              var issue := DataMember(QueryResponse(operationName), "issue").value;
              && Get(issue, "id") == Some(JStr(MockIssueId))
    ensures !IsIssueQuery(operationName) ==> Get(QueryResponse(operationName), "data") == Some(JObj([]))
  {
    if IsIssueQuery(operationName) {
      LookupFindsLast(IssueFixture().members, 0);
    }
  }

  // ---- The GraphQL route --------------------------------------------------------------

  /** The answer to a request without a usable query. */
  const MissingQuery: HttpResponse := HttpResponse(400, Obj1("errors", JArr([Obj1("message", JStr("Missing query field"))])))

  /** `operationName ?? null`: absent becomes `null`; any present value, `null` included, is kept. */
  function ResolvedOperationName(body: Json): (r: Json)
    ensures Get(body, "operationName").Some? ==> r == Get(body, "operationName").value
    ensures Get(body, "operationName").None? ==> r == JNull
  {
    if Get(body, "operationName").Some? then Get(body, "operationName").value else JNull
  }

  /** The record `POST /graphql` adds to the store: none when the query is missing or falsy, otherwise exactly one. */
  function RecordOf(body: Json, now: string): (r: seq<RecordedCall>)
    ensures |r| <= 1
    ensures r == [] <==> !JsTruthyOpt(Get(body, "query"))
    ensures r != [] ==> r[0].body == body && r[0].timestamp == now && r[0].operationName == ResolvedOperationName(body)
    ensures r != [] ==> (r[0].callType == Mutation <==> IsMutation(JsString(Get(body, "query").value)))
  {
    var query := Get(body, "query");
    if !JsTruthyOpt(query) then []
    else
      var callType := if IsMutation(JsString(query.value)) then Mutation else Query;
      [RecordedCall(callType, ResolvedOperationName(body), body, now)]
  }

  /** `POST /graphql`: 400 without a query; otherwise 200 with the canned answer for the request's kind and name. */
  function GraphqlResponse(body: Json): (r: HttpResponse)
    ensures r.status == 400 <==> !JsTruthyOpt(Get(body, "query"))
    ensures r.status != 400 ==> r.status == 200
  {
    var query := Get(body, "query");
    if !JsTruthyOpt(query) then MissingQuery
    else if IsMutation(JsString(query.value)) then HttpResponse(200, MutationResponse(ResolvedOperationName(body)))
    else HttpResponse(200, QueryResponse(ResolvedOperationName(body)))
  }

  /** A request is recorded exactly when it is answered with 200, and its record says which canned answer it got. */
  lemma RecordedIffAnswered(body: Json, now: string)
    ensures RecordOf(body, now) != [] <==> GraphqlResponse(body).status == 200
    ensures RecordOf(body, now) != [] ==>
              var c := RecordOf(body, now)[0];
              GraphqlResponse(body).body == (if c.callType == Mutation then MutationResponse(c.operationName)
                                             else QueryResponse(c.operationName))
  {
  }

  // ---- Routes and the store -------------------------------------------------------------

  /** The requests the app routes. */
  datatype Request = PostGraphql(body: Json, now: string) | GetAssertions | PostAssertionsReset | GetHealth

  /** A request's answer and the store's calls after it. */
  datatype Step = Step(response: HttpResponse, calls: seq<RecordedCall>)

  /** What one request does to the store and what it answers. */
  function Serve(calls: seq<RecordedCall>, req: Request): (r: Step)
    ensures req.PostGraphql? ==> |calls| <= |r.calls| <= |calls| + 1 && r.calls[..|calls|] == calls
    ensures req.PostAssertionsReset? ==> r.calls == []
    ensures req.GetAssertions? || req.GetHealth? ==> r.calls == calls
    ensures req.PostGraphql? ==> r.response == GraphqlResponse(req.body)
    ensures req.GetAssertions? ==> r.response == HttpResponse(200, Obj1("calls", CallsJson(calls)))
  {
    match req
    case PostGraphql(body, now) => Step(GraphqlResponse(body), calls + RecordOf(body, now))
    case GetAssertions => Step(HttpResponse(200, Obj1("calls", CallsJson(calls))), calls)
    case PostAssertionsReset => Step(HttpResponse(200, Obj1("ok", JBool(true))), [])
    case GetHealth => Step(HttpResponse(200, Obj1("status", JStr("ok"))), calls)
  }

  /** The store after a series of requests. */
  function Replay(calls: seq<RecordedCall>, reqs: seq<Request>): seq<RecordedCall> {
    if reqs == [] then calls else Serve(Replay(calls, reqs[..|reqs| - 1]), reqs[|reqs| - 1]).calls
  }

  /** The records a series of requests adds when none of them resets the store. */
  function Records(reqs: seq<Request>): seq<RecordedCall> {
    if reqs == [] then []
    else
      var last := reqs[|reqs| - 1];
      Records(reqs[..|reqs| - 1]) + (if last.PostGraphql? then RecordOf(last.body, last.now) else [])
  }

  /** Without a reset the store only grows: the old calls stay, in order, followed by the new records in request order. */
  lemma {:induction false} StoreAppendsInOrder(calls: seq<RecordedCall>, reqs: seq<Request>)
    requires forall i :: 0 <= i < |reqs| ==> !reqs[i].PostAssertionsReset?
    ensures Replay(calls, reqs) == calls + Records(reqs)
  {
    if reqs != [] {
      var init := reqs[..|reqs| - 1];
      assert forall i :: 0 <= i < |init| ==> init[i] == reqs[i];
      StoreAppendsInOrder(calls, init);
      assert !reqs[|reqs| - 1].PostAssertionsReset?;
    }
  }

  /** Replaying one more request serves it to the store the earlier ones left. */
  lemma ReplaySnoc(calls: seq<RecordedCall>, reqs: seq<Request>, req: Request)
    ensures Replay(calls, reqs + [req]) == Serve(Replay(calls, reqs), req).calls
  {
    assert (reqs + [req])[..|reqs|] == reqs;
  }

  /**
   * `GET /assertions` after a reset lists only the calls recorded since, whatever the store
   * held before: the records of the later requests, in order.
   */
  lemma AssertionsShowOnlyLaterCalls(calls: seq<RecordedCall>, before: seq<Request>, after: seq<Request>)
    requires forall i :: 0 <= i < |after| ==> !after[i].PostAssertionsReset?
    ensures Serve(Replay(calls, before + [PostAssertionsReset] + after), GetAssertions).response
            == HttpResponse(200, Obj1("calls", CallsJson(Records(after))))
  {
    ResetForgetsEarlier(calls, before, after);
    StoreAppendsInOrder([], after);
    assert [] + Records(after) == Records(after);
  }

  /** A reset forgets everything before it: what follows starts from an empty store. */
  lemma {:induction false} ResetForgetsEarlier(calls: seq<RecordedCall>, before: seq<Request>, after: seq<Request>)
    ensures Replay(calls, before + [PostAssertionsReset] + after) == Replay([], after)
  {
    if after == [] {
      assert before + [PostAssertionsReset] + after == before + [PostAssertionsReset];
      ReplaySnoc(calls, before, PostAssertionsReset);
    } else {
      var init := after[..|after| - 1];
      var last := after[|after| - 1];
      assert before + [PostAssertionsReset] + after == (before + [PostAssertionsReset] + init) + [last];
      assert after == init + [last];
      ReplaySnoc(calls, before + [PostAssertionsReset] + init, last);
      ReplaySnoc([], init, last);
      ResetForgetsEarlier(calls, before, init);
    }
  }

  /** Resetting twice is resetting once. */
  lemma ResetIdempotent(calls: seq<RecordedCall>)
    ensures Serve(Serve(calls, PostAssertionsReset).calls, PostAssertionsReset) == Serve(calls, PostAssertionsReset)
  {
  }

  /** The in-memory store of recorded calls. */
  class CallStore {
    var calls: seq<RecordedCall>

    constructor()
      ensures calls == []
    {
      calls := [];
    }

    /** `getCalls`. */
    method GetCalls() returns (r: seq<RecordedCall>)
      ensures r == calls
    {
      r := calls;
    }

    /** `resetCalls`. */
    method ResetCalls()
      modifies this
      ensures calls == []
    {
      calls := [];
    }

    /** `calls.push`. */
    method Push(c: RecordedCall)
      modifies this
      ensures calls == old(calls) + [c]
    {
      calls := calls + [c];
    }
  }

  /** `createApp`: an app over the one store; apps created later share it. */
  class MockApp {
    const store: CallStore

    constructor(store: CallStore)
      ensures this.store == store
    {
      this.store := store;
    }

    /** The app's routes: each answers as `Serve` says and leaves the store as `Serve` says. */
    method Handle(req: Request) returns (response: HttpResponse)
      modifies store
      ensures response == Serve(old(store.calls), req).response
      ensures store.calls == Serve(old(store.calls), req).calls
    {
      match req
      case PostGraphql(body, now) =>
        var query := Get(body, "query");
        if !JsTruthyOpt(query) {
          response := MissingQuery;
          return;
        }
        var operationName := ResolvedOperationName(body);
        var callType := if IsMutation(JsString(query.value)) then Mutation else Query;
        store.Push(RecordedCall(callType, operationName, body, now));
        response := HttpResponse(200, if callType == Mutation then MutationResponse(operationName) else QueryResponse(operationName));
      case GetAssertions =>
        var calls := store.GetCalls();
        response := HttpResponse(200, Obj1("calls", CallsJson(calls)));
      case PostAssertionsReset =>
        store.ResetCalls();
        response := HttpResponse(200, Obj1("ok", JBool(true)));
      case GetHealth =>
        response := HttpResponse(200, Obj1("status", JStr("ok")));
    }
  }
}
