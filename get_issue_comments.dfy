/** The `get_issue_comments` tool: every comment of an issue, in the order the service gives them. */
module McpGetIssueComments {
  import opened Wrappers
  import opened Json
  import opened Errors
  import opened Schema
  import ST = ServiceTypes
  import opened McpTypes
  import opened ToolUtils
  import McpGetIssue

  /** The answer's data: success and the comments. */
  function CommentsBody(comments: seq<ST.CommentResult>): Json {
    JObj([("success", JBool(true)), ("comments", ST.CommentsToJson(comments))])
  }

  /** The handler: one request; its answer has no metadata. */
  function Handle(issueId: string, ctx: Context): (r: McpRun<Response>)
    ensures r.calls == [GetIssueComments(issueId)]
    ensures r.outcome.Returned? <==> ctx.getIssueComments(issueId).Returned?
    ensures r.outcome.Threw? ==> r.outcome.error == ctx.getIssueComments(issueId).error
    ensures r.outcome.Returned? ==> r.outcome.value == McpSuccess(CommentsBody(ctx.getIssueComments(issueId).value), None)
  {
    match ctx.getIssueComments(issueId)
    case Threw(e) => McpRun(Threw(e), [GetIssueComments(issueId)])
    case Returned(cs) => McpRun(Returned(McpSuccess(CommentsBody(cs), None)), [GetIssueComments(issueId)])
  }

  const ToolName: string := "get_issue_comments"
  const ToolDescription: string :=
    "Linear 이슈의 모든 코멘트를 조회합니다. 각 코멘트의 본문(마크다운), 작성자, 작성일시를 반환합니다."

  /** The tool shares `get_issue`'s argument schema. */
  function GetIssueCommentsTool(): (t: Tool)
    ensures t.name == "get_issue_comments"
  {
    DefineTool(ToolName, ToolDescription, McpGetIssue.ParseIssueId, Handle)
  }

  /** Every comment the service returns is in the answer, one array element each; no answer carries metadata. */
  lemma AllCommentsReturned(args: Json, ctx: Context)
    requires McpGetIssue.ParseIssueId(args).Ok?
    ensures var s := GetIssueCommentsTool().handler(args, ctx);
            var id := Get(args, "issue_id").value.s;
            && s.calls == [GetIssueComments(id)]
            && s.response.meta.None?
            && (ctx.getIssueComments(id).Returned? ==>
                  var body := Get(CommentsBody(ctx.getIssueComments(id).value), "comments");
                  body.Some? && body.value.JArr? && |body.value.items| == |ctx.getIssueComments(id).value|)
  {
    var id := McpGetIssue.ParseIssueId(args).value;
    assert GetIssueCommentsTool().handler(args, ctx) == Catch(Handle(id, ctx));
    if ctx.getIssueComments(id).Returned? {
      LookupFindsLast(CommentsBody(ctx.getIssueComments(id).value).members, 1);
    }
  }
}
