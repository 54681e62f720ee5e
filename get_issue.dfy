/**
 * The `get_issue` tool: it looks an issue up by id or identifier and answers with the issue's
 * JSON form, recording the issue's id as metadata for the post-tool hooks.
 */
module McpGetIssue {
  import opened Wrappers
  import opened Json
  import opened Errors
  import opened Schema
  import ST = ServiceTypes
  import opened McpTypes
  import opened ToolUtils

  const IssueIdRule := StringRule(1, None, "Issue ID is required", DefaultMessage(TooBig(0)))

  /** An `{issue_id}` object: the id must be a non-empty string. */
  function ParseIssueId(j: Json): (r: Result<string, seq<Issue>>)
    ensures r.Ok? <==> j.JObj? && Get(j, "issue_id").Some? && Get(j, "issue_id").value.JStr? && Get(j, "issue_id").value.s != []
    ensures r.Ok? ==> r.value == Get(j, "issue_id").value.s
    ensures j.JObj? && Get(j, "issue_id") == Some(JStr([])) ==>
              r == Err([Issue(TooSmall(1), ["issue_id"], "Issue ID is required")])
    ensures r.Err? ==> r.error != []
  {
    if !j.JObj? then Err([TypeIssue([])])
    else
      assert BoundIssues([], ["issue_id"], IssueIdRule) == [Issue(TooSmall(1), ["issue_id"], "Issue ID is required")];
      match RequiredString(Get(j, "issue_id"), ["issue_id"], IssueIdRule)
      case Parsed(id, issues) => if issues == [] then Ok(id) else Err(issues)
      case Aborted(issues) => Err(issues)
  }

  /** The answer's data: success and the issue. */
  function IssueBody(issue: ST.IssueResult): Json {
    JObj([("success", JBool(true)), ("issue", ST.IssueToJson(issue))])
  }

  /** The handler: one lookup; the metadata names the issue that was found, by its id. */
  function Handle(issueId: string, ctx: Context): (r: McpRun<Response>)
    ensures r.calls == [GetIssue(issueId)]
    ensures r.outcome.Returned? <==> ctx.getIssue(issueId).Returned?
    ensures r.outcome.Threw? ==> r.outcome.error == ctx.getIssue(issueId).error
    ensures r.outcome.Returned? ==>
              var issue := ctx.getIssue(issueId).value;
              r.outcome.value == McpSuccess(IssueBody(issue), Some(Meta(Some(issue.id))))
  {
    match ctx.getIssue(issueId)
    case Threw(e) => McpRun(Threw(e), [GetIssue(issueId)])
    case Returned(issue) => McpRun(Returned(McpSuccess(IssueBody(issue), Some(Meta(Some(issue.id))))), [GetIssue(issueId)])
  }

  const ToolName: string := "get_issue"
  const ToolDescription: string :=
    "Linear 이슈를 ID 또는 식별자로 조회합니다. 이슈의 제목, 설명, 상태, 우선순위, 라벨, 담당자 등의 메타데이터를 반환합니다."

  function GetIssueTool(): (t: Tool)
    ensures t.name == "get_issue"
  {
    DefineTool(ToolName, ToolDescription, ParseIssueId, Handle)
  }

  /**
   * Looked up by identifier, the metadata still carries the issue's own id, the same id the
   * answer's `issue.id` shows.
   */
  lemma MetaNamesFoundIssue(args: Json, ctx: Context)
    requires ParseIssueId(args).Ok?
    ensures var s := GetIssueTool().handler(args, ctx);
            var id := Get(args, "issue_id").value.s;
            && s.calls == [GetIssue(id)]
            && (ctx.getIssue(id).Returned? ==>
                  && s.response.meta == Some(Meta(Some(ctx.getIssue(id).value.id)))
                  && Get(Get(IssueBody(ctx.getIssue(id).value), "issue").value, "id") == Some(JStr(ctx.getIssue(id).value.id)))
            && (ctx.getIssue(id).Threw? ==> s.response.isError == Some(true) && s.response.meta.None?)
  {
    var id := ParseIssueId(args).value;
    assert GetIssueTool().handler(args, ctx) == Catch(Handle(id, ctx));
    if ctx.getIssue(id).Returned? {
      var issue := ctx.getIssue(id).value;
      var ms := IssueBody(issue).members;
      LookupFindsLast(ms, 1);
      ST.IssueJsonId(issue);
    }
  }
}
