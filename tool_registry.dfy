/** The server's default tools and the hooks it runs after them. */
module McpToolRegistry {
  import opened Wrappers
  import opened Json
  import opened Errors
  import opened McpTypes
  import opened ToolUtils
  import opened McpPostToolHooks
  import opened McpServerModule
  import McpRequestFeature
  import McpGetExportActions
  import McpSetExportConfig
  import McpGetIssue
  import McpGetIssueComments
  import McpGitClone
  import McpValidation

  /** `createDefaultTools`: the six tools, in order, `git_clone` as written. */
  function DefaultTools(): (r: seq<Tool>)
    ensures |r| == 6
    ensures r[0].name == "request_feature" && r[1].name == "get_export_actions" && r[2].name == "set_export_config"
    ensures r[3].name == "get_issue" && r[4].name == "get_issue_comments" && r[5].name == "git_clone"
    ensures DistinctNames(r)
  {
    [McpRequestFeature.RequestFeatureTool(), McpGetExportActions.GetExportActionsTool(),
     McpSetExportConfig.SetExportConfigTool(), McpGetIssue.GetIssueTool(),
     McpGetIssueComments.GetIssueCommentsTool(), McpGitClone.GitCloneToolAsWritten()]
  }

  /** The default tools with `git_clone` holding an inferred directory to the directory checks. */
  function CheckedTools(): (r: seq<Tool>)
    ensures |r| == 6 && r[..5] == DefaultTools()[..5]
    ensures r[5].name == "git_clone" && DistinctNames(r)
  {
    DefaultTools()[..5] + [McpGitClone.GitCloneTool()]
  }

  /**
   * Through the server as wired, `git_clone` on accepted arguments makes exactly the requests
   * of the handler as written: no hook adds one, since its answer never names an issue.
   */
  lemma RegisteredCloneTrace(args: Json, a: McpGitClone.CloneArgs, ctx: Context)
    requires McpGitClone.ParseArgs(args) == Ok(a)
    ensures CallTrace(DefaultTools(), DefaultHooks(), ctx, "git_clone", args) == McpGitClone.Handle(a, ctx).calls
  {
    var tools := DefaultTools();
    CloneIsSixth();
    McpGitClone.AsWrittenRunsHandle(args, a, ctx);
    var served := tools[5].handler(args, ctx);
    assert served == Catch(McpGitClone.Handle(a, ctx));
    McpGitClone.CloneAnswerHasNoMeta(a, ctx);
    QuietResponseNoHookCalls(served.response, ctx);
    assert CallTrace(tools, DefaultHooks(), ctx, "git_clone", args) == served.calls + [];
  }

  /** `git_clone` is found at its place in the list, as written. */
  lemma CloneIsSixth()
    ensures FindTool(DefaultTools(), "git_clone") == Some(5)
    ensures DefaultTools()[5] == McpGitClone.GitCloneToolAsWritten()
  {
    FindsRegisteredTool(DefaultTools(), 5);
  }

  /** A response that names no issue gets no request from the default hooks. */
  lemma QuietResponseNoHookCalls(response: Response, ctx: Context)
    requires !NamesIssue(response)
    ensures HooksTrace(DefaultHooks(), response, ctx) == []
  {
    assert DefaultHooks()[..0] == [];
  }

  /**
   * Through the server as wired, a URL the schema accepts whose inferred directory begins with
   * a dash (such as `https://example.com/--bare`) has that directory, which fails the directory
   * check, handed to git as its last argument once the path is found free.
   */
  lemma RegisteredCloneTakesDashDirectory(url: string, ctx: Context)
    requires McpGitClone.ParseArgs(JObj([("url", JStr(url))])) == Ok(McpGitClone.CloneArgs(url, None, None))
    requires McpValidation.StartsWithDash(McpGitClone.InferDirectoryFromUrl(url))
    requires ctx.access(McpGitClone.ClonePath(ctx, McpGitClone.CloneArgs(url, None, None))).Threw?
    ensures var a := McpGitClone.CloneArgs(url, None, None);
            && CallTrace(DefaultTools(), DefaultHooks(), ctx, "git_clone", JObj([("url", JStr(url))]))
               == [Access(McpGitClone.ClonePath(ctx, a)), McpGitClone.CloneCall(ctx, a)]
            && McpGitClone.CloneCall(ctx, a).args == ["clone", "--progress", url, McpGitClone.InferDirectoryFromUrl(url)]
            && McpValidation.ValidateDirectoryName(McpGitClone.InferDirectoryFromUrl(url)).Some?
  {
    var a := McpGitClone.CloneArgs(url, None, None);
    McpGitClone.InferredDashDirectoryReachesGit(url, ctx);
    RegisteredCloneTrace(JObj([("url", JStr(url))]), a, ctx);
  }

  /** The hooks the server runs after every call. */
  function DefaultHooks(): seq<Hook> {
    [SessionCommentHook]
  }

  /**
   * A successful `get_issue` call, with the session known, is followed by the session comment
   * on the issue found (by its id, whatever identifier it was looked up by); the caller's answer
   * carries no metadata.
   */
  lemma GetIssueSessionComment(args: Json, ctx: Context)
    requires McpGetIssue.ParseIssueId(args).Ok?
    requires ctx.getIssue(McpGetIssue.ParseIssueId(args).value).Returned?
    requires ctx.getIssue(McpGetIssue.ParseIssueId(args).value).value.id != ""
    requires SessionKnown(ctx)
    ensures var id := Get(args, "issue_id").value.s;
            var issue := ctx.getIssue(id).value;
            CallTrace(DefaultTools(), DefaultHooks(), ctx, "get_issue", args)
            == [GetIssue(id), ReadSessionId, CreateComment(issue.id, SessionCommentBody(ctx.sessionId.value))]
  {
    var tools := DefaultTools();
    var id := McpGetIssue.ParseIssueId(args).value;
    FindsRegisteredTool(tools, 3);
    McpGetIssue.MetaNamesFoundIssue(args, ctx);
    assert tools[3].handler(args, ctx) == Catch(McpGetIssue.Handle(id, ctx));
    HooksSeeFullResponse(tools, ctx, "get_issue", args);
  }

  /** `get_issue_comments` answers without metadata, so the session hook never comments after it. */
  lemma CommentsCallNeverComments(args: Json, ctx: Context)
    requires McpGetIssue.ParseIssueId(args).Ok?
    ensures CallTrace(DefaultTools(), DefaultHooks(), ctx, "get_issue_comments", args)
            == [GetIssueComments(Get(args, "issue_id").value.s)]
  {
    var tools := DefaultTools();
    FindsRegisteredTool(tools, 4);
    McpGetIssueComments.AllCommentsReturned(args, ctx);
    var served := tools[4].handler(args, ctx);
    assert DefaultHooks()[..0] == [];
    assert HooksTrace(DefaultHooks(), served.response, ctx) == SessionCommentHook(served.response, ctx).calls;
  }

  /** A failed tool call (an error response) never gets a session comment. */
  lemma ErrorResponsesNeverComment(name: string, args: Json, ctx: Context)
    requires FindTool(DefaultTools(), name).Some?
    requires DefaultTools()[FindTool(DefaultTools(), name).value].handler(args, ctx).response.isError == Some(true)
    ensures var served := DefaultTools()[FindTool(DefaultTools(), name).value].handler(args, ctx);
            CallTrace(DefaultTools(), DefaultHooks(), ctx, name, args) == served.calls
  {
    var served := DefaultTools()[FindTool(DefaultTools(), name).value].handler(args, ctx);
    assert DefaultHooks()[..0] == [];
    assert HooksTrace(DefaultHooks(), served.response, ctx) == SessionCommentHook(served.response, ctx).calls;
  }
}
