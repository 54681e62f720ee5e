/**
 * The MCP server built over a list of tools: each tool is registered under its own name, and
 * a call runs the tool's handler, hands the full response to the post-tool hooks, and returns
 * the response without its metadata.
 */
module McpServerModule {
  import opened Wrappers
  import opened Json
  import opened McpTypes
  import opened McpPostToolHooks
  import Schema

  /** The registration a tool gets: its name, description and schema (the callback is `McpServer.CallTool`). */
  datatype Registration = Registration(name: string, description: string, schema: Json -> Result<(), seq<Schema.Issue>>)

  function RegistrationOf(t: Tool): Registration {
    Registration(t.name, t.description, t.schema)
  }

  /** The response a client sees: the metadata is removed, everything else kept. */
  function Strip(response: Response): (r: ToolResult)
    ensures r.content == response.content && r.isError == response.isError
  {
    ToolResult(response.content, response.isError)
  }

  /** The position of the first tool with the given name. */
  function FindTool(tools: seq<Tool>, name: string): (r: Option<nat>)
    ensures r.None? <==> forall k :: 0 <= k < |tools| ==> tools[k].name != name
    ensures r.Some? ==> r.value < |tools| && tools[r.value].name == name
    ensures r.Some? ==> forall k :: 0 <= k < r.value ==> tools[k].name != name
  {
    if tools == [] then None
    else if tools[0].name == name then Some(0)
    else
      var r := FindTool(tools[1..], name);
      if r.Some? then Some(r.value + 1) else None
  }

  /** The names are pairwise distinct. */
  predicate DistinctNames(tools: seq<Tool>) {
    forall i, j :: 0 <= i < j < |tools| ==> tools[i].name != tools[j].name
  }

  /** What a call to `name` answers: nothing for an unknown name, else the handler's response without metadata. */
  function CallResult(tools: seq<Tool>, ctx: Context, name: string, args: Json): Option<ToolResult> {
    var t := FindTool(tools, name);
    if t.None? then None else Some(Strip(tools[t.value].handler(args, ctx).response))
  }

  /** The requests a call makes: the handler's, then the hooks', on the full response. */
  function CallTrace(tools: seq<Tool>, hooks: seq<Hook>, ctx: Context, name: string, args: Json): seq<McpCall> {
    var t := FindTool(tools, name);
    if t.None? then []
    else
      var served := tools[t.value].handler(args, ctx);
      served.calls + HooksTrace(hooks, served.response, ctx)
  }

  /** `createMcpServer`: the server with its tools, context and post-tool hooks. */
  class McpServer {
    var registered: seq<Registration>
    var tools: seq<Tool>
    const context: Context
    const hooks: seq<Hook>

    /** Every tool is registered, in order, under its own name with its own schema; the hooks default to none. */
    constructor(tools: seq<Tool>, context: Context, postToolHooks: Option<seq<Hook>>)
      ensures this.tools == tools && this.context == context
      ensures hooks == (if postToolHooks.Some? then postToolHooks.value else [])
      ensures |registered| == |tools|
      ensures forall k :: 0 <= k < |tools| ==> registered[k] == RegistrationOf(tools[k])
    {
      this.context := context;
      this.hooks := if postToolHooks.Some? then postToolHooks.value else [];
      this.registered := [];
      this.tools := [];
      new;
      var i := 0;
      while i < |tools|
        invariant 0 <= i <= |tools|
        invariant this.tools == tools[..i]
        invariant |registered| == i
        invariant forall k :: 0 <= k < i ==> registered[k] == RegistrationOf(tools[k])
      {
        RegisterTool(tools[i]);
        i := i + 1;
      }
      assert tools[..i] == tools;
    }

    /** `registerTool`: one more registration and its callback's tool. */
    method RegisterTool(t: Tool)
      modifies this
      ensures registered == old(registered) + [RegistrationOf(t)]
      ensures tools == old(tools) + [t]
    {
      registered := registered + [RegistrationOf(t)];
      tools := tools + [t];
    }

    /**
     * The callback: the handler runs, the hooks see its full response, and the caller gets the
     * response stripped of its metadata, fixed before the hooks ran. An unknown name is answered
     * by the protocol library, not here.
     */
    method CallTool(name: string, args: Json) returns (result: Option<ToolResult>, calls: seq<McpCall>)
      ensures result == CallResult(tools, context, name, args)
      ensures calls == CallTrace(tools, hooks, context, name, args)
    {
      var t := FindTool(tools, name);
      if t.None? {
        return None, [];
      }
      var fullResponse := tools[t.value].handler(args, context);
      result := Some(Strip(fullResponse.response));
      var hookCalls, failures := RunPostToolHooks(hooks, fullResponse.response, context);
      calls := fullResponse.calls + hookCalls;
    }
  }

  /** Among tools with distinct names, a tool's own name finds that tool. */
  lemma FindsRegisteredTool(tools: seq<Tool>, k: nat)
    requires DistinctNames(tools) && k < |tools|
    ensures FindTool(tools, tools[k].name) == Some(k)
  {
  }

  /**
   * The hooks see the full response, metadata included: with the session-comment hook, a tool
   * whose response names an issue gets the session comment on that issue, after the handler's
   * own requests, while the caller gets the same response without its metadata.
   */
  lemma HooksSeeFullResponse(tools: seq<Tool>, ctx: Context, name: string, args: Json)
    requires FindTool(tools, name).Some?
    requires NamesIssue(tools[FindTool(tools, name).value].handler(args, ctx).response) && SessionKnown(ctx)
    ensures var served := tools[FindTool(tools, name).value].handler(args, ctx);
            && CallTrace(tools, [SessionCommentHook], ctx, name, args)
               == served.calls + [ReadSessionId, CreateComment(served.response.meta.value.issueId.value, SessionCommentBody(ctx.sessionId.value))]
            && CallResult(tools, ctx, name, args) == Some(ToolResult(served.response.content, served.response.isError))
  {
    var served := tools[FindTool(tools, name).value].handler(args, ctx);
    assert [SessionCommentHook][..0] == [];
    assert HooksTrace([SessionCommentHook], served.response, ctx) == SessionCommentHook(served.response, ctx).calls;
  }
}
