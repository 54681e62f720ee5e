/**
 * The MCP server's tool vocabulary: a tool's response and the part of it a client sees,
 * the context a handler runs in (its collaborators as oracles) and the record of the
 * requests a handler makes of them.
 */
module McpTypes {
  import opened Wrappers
  import opened Json
  import opened Errors
  import opened ServiceTypes
  import Text

  /** `McpToolMeta`: out-of-band data for post-tool hooks. */
  datatype Meta = Meta(issueId: Option<string>)

  /** `McpToolResponse`: the text blocks, the error flag and the metadata. */
  datatype Response = Response(content: seq<string>, isError: Option<bool>, meta: Option<Meta>)

  /** What the server returns to the client: the response without its metadata. */
  datatype ToolResult = ToolResult(content: seq<string>, isError: Option<bool>)

  datatype ExecOptions = ExecOptions(cwd: string, timeout: nat, maxBuffer: nat)
  datatype ExecOutput = ExecOutput(stdout: string, stderr: string)

  /**
   * `McpToolContext`. The services and the file system are oracles; the session id is a value,
   * since reading it never fails.
   */
  datatype Context = Context(
    workDir: string,
    writeFile: (string, string) -> Outcome<()>,
    access: string -> Outcome<()>,
    execFile: (string, seq<string>, ExecOptions) -> Outcome<ExecOutput>,
    createFeatureRequest: FeatureRequest -> Outcome<CreatedIssue>,
    getIssue: string -> Outcome<IssueResult>,
    getIssueComments: string -> Outcome<seq<CommentResult>>,
    createComment: (string, string) -> Outcome<string>,
    sessionId: Option<string>)

  /** A request made of the context. */
  datatype McpCall =
    | WriteFile(path: string, data: string)
    | Access(path: string)
    | ExecFile(file: string, args: seq<string>, options: ExecOptions)
    | CreateFeatureRequest(request: FeatureRequest)
    | GetIssue(issueId: string)
    | GetIssueComments(issueId: string)
    | CreateComment(issueId: string, body: string)
    | ReadSessionId

  /** A computation that may throw, with the requests it made. */
  datatype McpRun<+T> = McpRun(outcome: Outcome<T>, calls: seq<McpCall>)

  /** A handler's answer once errors are caught: it always has a response. */
  datatype Served = Served(response: Response, calls: seq<McpCall>)

  /** `McpTool`: its name, description, the verdict of its argument schema, and its error-handling handler. */
  datatype Tool = Tool(
    name: string,
    description: string,
    schema: Json -> Result<(), seq<Schema.Issue>>,
    handler: (Json, Context) -> Served)

  /** `path.join(workDir, name)` for the plain names the tools use. */
  function InWorkDir(ctx: Context, name: string): string {
    Text.PathJoin(ctx.workDir, name)
  }
}
