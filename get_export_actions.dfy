/** The `get_export_actions` tool: the catalogue of export actions, with no request made. */
module McpGetExportActions {
  import opened Wrappers
  import opened Json
  import opened Errors
  import opened Schema
  import opened McpTypes
  import opened ToolUtils
  import MC = McpExportConstants

  /** `z.object({})`: any object is accepted, its members stripped. */
  function ParseEmpty(j: Json): (r: Result<(), seq<Issue>>)
    ensures r.Ok? <==> j.JObj?
    ensures r.Err? ==> r.error == [TypeIssue([])]
  {
    if j.JObj? then Ok(()) else Err([TypeIssue([])])
  }

  function ActionsBody(): Json {
    JObj([("success", JBool(true)), ("actions", MC.CatalogueJson())])
  }

  /** The handler needs nothing from its context. */
  function Handle(u: (), ctx: Context): (r: McpRun<Response>)
    ensures r == McpRun(Returned(McpSuccess(ActionsBody(), None)), [])
  {
    McpRun(Returned(McpSuccess(ActionsBody(), None)), [])
  }

  const ToolName: string := "get_export_actions"
  const ToolDescription: string :=
    "사용 가능한 export action 목록을 조회합니다. 작업 완료 후 결과물을 내보내는 방법을 확인할 때 사용합니다."

  function GetExportActionsTool(): (t: Tool)
    ensures t.name == "get_export_actions"
  {
    DefineTool(ToolName, ToolDescription, ParseEmpty, Handle)
  }

  /**
   * Whatever object it is given and whatever its context, the tool answers with the same
   * catalogue, one entry per export action, and makes no request.
   */
  lemma CatalogueIndependentOfInput(args: Json, ctx: Context, ctx': Context)
    requires args.JObj?
    ensures GetExportActionsTool().handler(args, ctx) == GetExportActionsTool().handler(JObj([]), ctx')
    ensures GetExportActionsTool().handler(args, ctx).calls == []
    ensures GetExportActionsTool().handler(args, ctx).response.isError.None?
    ensures var acts := Get(ActionsBody(), "actions");
            acts.Some? && acts.value.JArr? && |acts.value.items| == |MC.ExportActions()|
  {
    assert GetExportActionsTool().handler(args, ctx) == Catch(Handle((), ctx));
    assert GetExportActionsTool().handler(JObj([]), ctx') == Catch(Handle((), ctx'));
    LookupFindsLast(ActionsBody().members, 1);
  }
}
