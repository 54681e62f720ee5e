/**
 * The `request_feature` tool: it validates a title, a reason and an optional priority
 * (medium when absent), files the request with the issue tracker, and answers with the new
 * issue's id, identifier and URL, recording the issue id as metadata for the post-tool hooks.
 */
module McpRequestFeature {
  import opened Wrappers
  import opened Json
  import opened Errors
  import opened Schema
  import opened ServiceTypes
  import LinearService
  import opened McpTypes
  import opened ToolUtils

  /** The arguments once parsed: the priority's default has been applied. */
  datatype FeatureArgs = FeatureArgs(title: string, reason: string, priority: Priority)

  const TitleRule := StringRule(5, Some(200), "Title must be at least 5 characters", "Title must be at most 200 characters")
  const ReasonRule := StringRule(1, Some(10000), "Reason is required", "Reason must be at most 10000 characters")

  /** The priority member: absent means medium; a present value must be one of the five tokens. */
  function ParsePriorityField(v: Option<Json>): (r: Parsed<Priority>)
    ensures v.None? ==> r == Parsed(Medium, [])
    ensures r.Parsed? ==> r.issues == [] && (v.Some? ==> v.value.JStr? && PriorityToken(r.value) == v.value.s)
    ensures v.Some? && v.value.JStr? && ParsePriority(v.value.s).None? ==>
              r == Aborted([Issue(InvalidEnumValue, ["priority"], DefaultMessage(InvalidEnumValue))])
    ensures v.Some? && !v.value.JStr? ==> r == Aborted([TypeIssue(["priority"])])
  {
    match v
    case None => Parsed(Medium, [])
    case Some(JStr(s)) =>
      (match ParsePriority(s)
       case Some(p) => Parsed(p, [])
       case None => Aborted([Issue(InvalidEnumValue, ["priority"], DefaultMessage(InvalidEnumValue))]))
    case _ => Aborted([TypeIssue(["priority"])])
  }

  /** `RequestFeatureInputSchema.parse`: issues of the title, then the reason, then the priority. */
  function ParseArgs(j: Json): (r: Result<FeatureArgs, seq<Issue>>)
    ensures r.Ok? <==>
              && j.JObj?
              && Get(j, "title").Some? && Get(j, "title").value.JStr? && WithinBounds(Get(j, "title").value.s, TitleRule)
              && Get(j, "reason").Some? && Get(j, "reason").value.JStr? && WithinBounds(Get(j, "reason").value.s, ReasonRule)
              && ParsePriorityField(Get(j, "priority")).Parsed?
    ensures r.Ok? ==> r.value.title == Get(j, "title").value.s && r.value.reason == Get(j, "reason").value.s
    ensures r.Ok? ==> r.value.priority == ParsePriorityField(Get(j, "priority")).value
    ensures r.Err? ==> r.error != []
  {
    if !j.JObj? then Err([TypeIssue([])])
    else
      var title := RequiredString(Get(j, "title"), ["title"], TitleRule);
      var reason := RequiredString(Get(j, "reason"), ["reason"], ReasonRule);
      var priority := ParsePriorityField(Get(j, "priority"));
      var issues := title.issues + reason.issues + priority.issues;
      if title.Parsed? && reason.Parsed? && priority.Parsed? && issues == [] then
        Ok(FeatureArgs(title.value, reason.value, priority.value))
      else if issues == [] then
        assert false; Err([])
      else Err(issues)
  }

  const CreatedMessage: string := "Feature request created successfully"

  /** The answer's data: success, a message, and the new issue's id, identifier and URL. */
  function CreatedBody(issue: CreatedIssue): Json {
    JObj([("success", JBool(true)), ("message", JStr(CreatedMessage)),
          ("issue", JObj([("id", JStr(issue.issueId)), ("identifier", JStr(issue.issueIdentifier)),
                          ("url", JStr(issue.issueUrl))]))])
  }

  /** The request the handler files: the parsed fields, with the priority always given. */
  function RequestOf(a: FeatureArgs): FeatureRequest {
    FeatureRequest(a.title, a.reason, Some(a.priority))
  }

  /** The handler: one request to the tracker; what it throws propagates to the error wrapper. */
  function Handle(a: FeatureArgs, ctx: Context): (r: McpRun<Response>)
    ensures r.calls == [CreateFeatureRequest(FeatureRequest(a.title, a.reason, Some(a.priority)))]
    ensures r.outcome.Returned? <==> ctx.createFeatureRequest(RequestOf(a)).Returned?
    ensures r.outcome.Threw? ==> r.outcome.error == ctx.createFeatureRequest(RequestOf(a)).error
    ensures r.outcome.Returned? ==>
              var issue := ctx.createFeatureRequest(RequestOf(a)).value;
              r.outcome.value == McpSuccess(CreatedBody(issue), Some(Meta(Some(issue.issueId))))
  {
    var request := RequestOf(a);
    match ctx.createFeatureRequest(request)
    case Threw(e) => McpRun(Threw(e), [CreateFeatureRequest(request)])
    case Returned(issue) =>
      McpRun(Returned(McpSuccess(CreatedBody(issue), Some(Meta(Some(issue.issueId))))), [CreateFeatureRequest(request)])
  }

  const ToolName: string := "request_feature"
  const ToolDescription: string :=
    "MCP 서버 기능 추가 또는 확장을 개발자에게 요청합니다. 도구가 부족하거나 없어서 작업을 완료할 수 없을 때 사용하세요. 다음 세션에서 해당 기능을 사용할 수 있게 됩니다."

  function RequestFeatureTool(): (t: Tool)
    ensures t.name == "request_feature"
  {
    DefineTool(ToolName, ToolDescription, ParseArgs, Handle)
  }

  /** The data's `issue` member carries the created issue's id, and the metadata records that same id. */
  lemma CreatedBodyCarriesId(issue: CreatedIssue)
    ensures Get(CreatedBody(issue), "success") == Some(JBool(true))
    ensures Get(CreatedBody(issue), "issue").Some?
    ensures Get(Get(CreatedBody(issue), "issue").value, "id") == Some(JStr(issue.issueId))
  {
    var ms := CreatedBody(issue).members;
    LookupFindsLast(ms, 0);
    LookupFindsLast(ms, 2);
    LookupFindsLast(ms[2].1.members, 0);
  }

  /**
   * A request without a priority is filed as medium, which the issue tracker service turns into
   * the same number it uses when no priority is given at all.
   */
  lemma AbsentPriorityFiledAsMedium(j: Json)
    requires ParseArgs(j).Ok? && Get(j, "priority").None?
    ensures RequestOf(ParseArgs(j).value).priority == Some(Medium)
    ensures LinearService.PriorityValue(Medium) == 3
  {
  }

  /**
   * Accepted arguments make exactly one request, carrying the given title and reason; a
   * successful answer is not an error and names the created issue in its metadata.
   */
  lemma AcceptedRequestFiledOnce(args: Json, ctx: Context)
    requires ParseArgs(args).Ok?
    ensures var s := RequestFeatureTool().handler(args, ctx);
            var a := ParseArgs(args).value;
            && s.calls == [CreateFeatureRequest(FeatureRequest(Get(args, "title").value.s, Get(args, "reason").value.s, Some(a.priority)))]
            && (ctx.createFeatureRequest(RequestOf(a)).Returned? ==>
                  s.response.isError.None?
                  && s.response.meta == Some(Meta(Some(ctx.createFeatureRequest(RequestOf(a)).value.issueId))))
            && (ctx.createFeatureRequest(RequestOf(a)).Threw? ==> s.response.isError == Some(true) && s.response.meta.None?)
  {
    var a := ParseArgs(args).value;
    assert RequestFeatureTool().handler(args, ctx) == Catch(Handle(a, ctx));
  }
}
