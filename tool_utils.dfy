/**
 * Building tool responses: a success envelope around pretty-printed data, an error envelope
 * around a message, and the wrapper that turns anything a handler throws into an error
 * envelope, so that a tool's handler never fails.
 */
module ToolUtils {
  import opened Wrappers
  import opened Json
  import opened Errors
  import Schema
  import Text
  import opened McpTypes

  /** `mcpSuccess`: the data as JSON indented by two, and the metadata if any. */
  function McpSuccess(data: Json, meta: Option<Meta>): (r: Response)
    ensures r.content == [Stringify(data, 2)]
    ensures r.isError == None && r.meta == meta
  {
    Response([Stringify(data, 2)], None, meta)
  }

  /** The error envelope's JSON: `{success: false, error: message}`. */
  function ErrorBody(message: string): (r: Json)
    ensures Get(r, "success") == Some(JBool(false))
    ensures Get(r, "error") == Some(JStr(message))
  {
    var ms := [("success", JBool(false)), ("error", JStr(message))];
    LookupFindsLast(ms, 0);
    LookupFindsLast(ms, 1);
    JObj(ms)
  }

  /** `mcpError`: the compact error body, flagged as an error, without metadata. */
  function McpError(message: string): (r: Response)
    ensures r.content == [Stringify(ErrorBody(message), 0)]
    ensures r.isError == Some(true) && r.meta == None
  {
    Response([Stringify(ErrorBody(message), 0)], Some(true), None)
  }

  /** The error text is the compact object with `success` first and the message second. */
  lemma McpErrorText(message: string)
    ensures McpError(message).content[0]
         == "{" + (QuoteString("success") + ":" + "false") + "," + (QuoteString("error") + ":" + QuoteString(message)) + "}"
  {
    assert ErrorBody(message) == JObj([("success", JBool(false)), ("error", JStr(message))]);
    CompactPair(ErrorBody(message).members);
    assert Render(JBool(false), 0, 1) == "false";
    assert Render(JStr(message), 0, 1) == QuoteString(message);
  }

  /** One validation issue as the wrapper reports it: its dotted path, a colon, its message. */
  function IssueDetail(i: Schema.Issue): string {
    Text.Join(i.path, ".") + ": " + i.message
  }

  /** All issues, in order, separated by semicolons. */
  function IssueDetails(issues: seq<Schema.Issue>): (r: string)
    ensures |issues| == 1 ==> r == IssueDetail(issues[0])
  {
    Text.Join(seq(|issues|, k requires 0 <= k < |issues| => IssueDetail(issues[k])), "; ")
  }

  /** The message a caught value becomes. */
  function CaughtMessage(e: Thrown): (r: string)
    ensures e.ZodError? ==> r == "Validation failed: " + IssueDetails(e.issues)
    ensures e.ErrorObject? ==> r == e.message
    ensures !IsError(e) ==> r == "Unknown error occurred"
  {
    match e
    case ZodError(issues) => "Validation failed: " + IssueDetails(issues)
    case ErrorObject(m, _) => m
    case NonError(_) => "Unknown error occurred"
  }

  /** The `catch` of `withErrorHandling`: a returned response is kept, a thrown value becomes an error envelope. */
  function Catch(run: McpRun<Response>): (r: Served)
    ensures r.calls == run.calls
    ensures run.outcome.Returned? ==> r.response == run.outcome.value
    ensures run.outcome.Threw? ==> r.response == McpError(CaughtMessage(run.outcome.error))
  {
    match run.outcome
    case Returned(resp) => Served(resp, run.calls)
    case Threw(e) => Served(McpError(CaughtMessage(e)), run.calls)
  }

  /** `withErrorHandling(handler)`. */
  function WithErrorHandling(handler: (Json, Context) -> McpRun<Response>): (Json, Context) -> Served {
    (args: Json, ctx: Context) => Catch(handler(args, ctx))
  }

  /** The body of a defined tool's handler: parse the arguments, then run the typed handler on the result. */
  function Invoke<T>(parse: Json -> Result<T, seq<Schema.Issue>>, handler: (T, Context) -> McpRun<Response>,
                     args: Json, ctx: Context): (r: Served)
    ensures parse(args).Err? ==>
              r == Served(McpError("Validation failed: " + IssueDetails(parse(args).error)), [])
    ensures parse(args).Ok? ==> r == Catch(handler(parse(args).value, ctx))
  {
    match parse(args)
    case Err(issues) => Catch(McpRun(Threw(ZodError(issues)), []))
    case Ok(v) => Catch(handler(v, ctx))
  }

  /** The schema's verdict alone. */
  function Verdict<T>(parse: Json -> Result<T, seq<Schema.Issue>>): Json -> Result<(), seq<Schema.Issue>> {
    (args: Json) => if parse(args).Ok? then Ok(()) else Err(parse(args).error)
  }

  /** `defineTool`: the name, description and schema as given, and a handler that validates first and never fails. */
  function DefineTool<T>(name: string, description: string, parse: Json -> Result<T, seq<Schema.Issue>>,
                         handler: (T, Context) -> McpRun<Response>): (t: Tool)
    ensures t.name == name && t.description == description
    ensures forall args :: t.schema(args).Ok? <==> parse(args).Ok?
    ensures forall args, ctx :: t.handler(args, ctx) == Invoke(parse, handler, args, ctx)
  {
    Tool(name, description, Verdict(parse), (args: Json, ctx: Context) => Invoke(parse, handler, args, ctx))
  }

  /** Arguments the schema refuses never reach the typed handler: the tool answers with the issues and makes no request. */
  lemma RefusedArgumentsMakeNoRequests<T>(name: string, description: string, parse: Json -> Result<T, seq<Schema.Issue>>,
                                          handler: (T, Context) -> McpRun<Response>, args: Json, ctx: Context)
    requires DefineTool(name, description, parse, handler).schema(args).Err?
    ensures var s := DefineTool(name, description, parse, handler).handler(args, ctx);
            s.calls == [] && s.response.isError == Some(true)
  {
  }
}
