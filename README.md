# pure-agent, modelled in Dafny

This project models the decision and export machinery of pure-agent, a system that runs a
coding agent in a loop and exports what it produced. It covers four parts.

- **export-handler.** It does the following:
  - validates the agent's export configuration (`export_config.json`) with the zod schema and its cross-field rules;
  - posts the summary comment on the Linear issue;
  - runs each requested export action in list order, validating before executing: `none`, `continue`, `report`, `upload_workspace`, `create_pr`;
  - merges the actions' results.
  The git and `gh` commands, the Linear comment service, the environment-derived configuration and the error helpers are modelled with it.
- **mcp-server.** It does the following:
  - defines the tools the agent calls: `request_feature`, `get_export_actions`, `set_export_config`, `get_issue`, `get_issue_comments`, `git_clone`;
  - wraps each tool so that it validates its arguments and never fails;
  - serves the tools, passing every full response to the post-tool hooks (the session-comment hook);
  - provides the Linear and session services behind the tools.
- **router** (Python). It decides whether the agent loop runs another iteration, writes that decision to a file, and uploads the session transcripts to object storage without letting the upload affect the decision.
- **The end-to-end Linear mock.** It records every GraphQL request, answers with canned responses, and serves the recorded calls for assertions until they are reset.

Each source file becomes one Dafny module. The file names follow the source: `export_schema.dfy` models
`export-handler/src/schema.ts`, `router_logic.dfy` models `router/src/router/logic.py`, and so on.
`wrappers.dfy`, `text.dfy`, `json.dfy`, `schema.dfy` and `collaborators.dfy` hold what the modules share:
- `Option`/`Result`;
- JavaScript and Python string helpers;
- a JSON value with key lookup and `JSON.stringify`;
- the zod rules as explicit functions;
- the thrown-value and collaborator types.

**How effects are modelled.**
- **Collaborators** are parameters holding functions, each giving a result or a thrown value. This covers the Linear client, the file system, `execFile`, the zip and upload services, and the object store.
- **Traces.** Every operation that calls one returns its outcome together with the list of requests it made. This is how order, "nothing else is called" and "stops at the first failure" are stated.
- **Loops** are methods proved against recursive specification functions. These are the orchestrator's action loop, both copies of the cross-field refinement, the hook runner, the server's registration loop, and the transcript collection and upload.
- **State the source updates in place** is a class. This covers the Linear and session services, the MCP server, and the mock's call store and app.

Where the specification and the code differ, the model follows the code.

## Model

| member | source | states |
|---|---|---|
| Errors.GetErrorMessage | export-handler/src/errors.ts:1-3 | an `Error` yields its own message (a validation error the message built from its issues); any other thrown value yields its string form |
| Errors.WrapErrorRecoverable | export-handler/src/errors.ts:5-7 | a wrapped error is an `Error`, keeps exactly the original value as its cause, and its message is the context, `": "`, then the original message, which can be split back off |
| Errors.WrapTwice | export-handler/src/errors.ts:5-7 | wrapping twice nests the two contexts outermost first and keeps the first wrapping as the cause |
| Errors.AssertValidated | export-handler/src/errors.ts:13-20 | throws exactly when the condition is falsy (absent, `null`, `false`, `0`, `""`), and then with the `Bug: <field> missing` message |
| Templates.SummaryComment | export-handler/src/templates.ts:4-6 | the comment is the fixed summary header followed by exactly the summary |
| Templates.ReportComment | export-handler/src/templates.ts:8-10 | the comment is the fixed report header followed by exactly the report |
| Templates.WorkspaceUploadComment | export-handler/src/templates.ts:12-14 | the fixed upload header, then a markdown link whose text is the file name and whose target is the asset address |
| Templates.PrCreatedComment | export-handler/src/templates.ts:16-18 | the fixed PR header, the title in bold, a blank line, then the PR address at the very end |
| Templates.SingleInputTemplatesInjective | export-handler/src/templates.ts:4-10 | different summaries give different comments, and so do different reports |
| Templates.SummaryAndReportDistinct | export-handler/src/templates.ts:4-10 | no summary comment equals any report comment |
| Templates.PrCreatedCommentDeterminesUrl | export-handler/src/templates.ts:16-18 | for a fixed title the PR comment determines the PR address |
| ExportConstants.ParseAction | export-handler/src/constants.ts:1-15 | a recognised token is the token of the action returned |
| ExportConstants.ExportActionsEnumerateAll | export-handler/src/constants.ts:7-13 | the list has five entries, contains every action, has pairwise distinct tokens, and its tokens are `none, upload_workspace, report, create_pr, continue` in that order |
| ExportConstants.ParseActionRoundTrip | export-handler/src/constants.ts:1-15 | parsing a token gives back its action, and parsing succeeds exactly for the five listed tokens |
| ExportConstants.ClassificationsDisjoint | export-handler/src/constants.ts:17-27 | the exclusive actions are exactly `none` and `continue`, the issue-requiring ones exactly `upload_workspace` and `report`, and no action is both |
| ExportConstants.ZipExcludesConfig | export-handler/src/constants.ts:32-40 | the archive exclusions cover `.git`, `node_modules` and the export configuration file |
| ActionTypes.Resolve | export-handler/src/actions/create-pr.ts:24 | an absolute `repo_path` is used as it is; a relative one is placed under the work directory |
| NoneAction.Validate | export-handler/src/actions/none.ts:7 | accepts every context |
| NoneAction.Execute | export-handler/src/actions/none.ts:8-11 | resolves with the empty result and calls nothing |
| NoneAction.IgnoresContext | export-handler/src/actions/none.ts:6-12 | validation and execution give the same answer for every context and world, and merging the result changes no accumulated result |
| ContinueAction.Validate | export-handler/src/actions/continue.ts:7 | accepts every context |
| ContinueAction.Execute | export-handler/src/actions/continue.ts:8-11 | resolves with the empty result and calls nothing |
| ContinueAction.IgnoresContext | export-handler/src/actions/continue.ts:6-12 | validation and execution give the same answer for every context and world, and merging the result changes no accumulated result |
| ActionRegistry.RegistryIsBijection | export-handler/src/actions/registry.ts:9-15 | every action has its own handler and every handler is registered under exactly one action |
| ActionRegistry.ExecuteWith | export-handler/src/actions/registry.ts:9-15 | once a handler has accepted the context, every call its execution makes goes to an outside service |
| ActionRegistry.ExclusiveHandlersAreInert | export-handler/src/actions/registry.ts:9-15 | the handlers of the exclusive actions accept every context and return the empty result without calls |
| ReportAction.Validate | export-handler/src/actions/report.ts:9-16 | accepts exactly when the issue id is usable (present, non-empty, not `"none"`) and the report is non-empty; the issue is checked first, each failure with its own message |
| ReportAction.Execute | export-handler/src/actions/report.ts:17-23 | exactly one comment, the report template on the issue; the run succeeds with the empty result exactly when the tracker reports success, and otherwise fails with the comment's error |
| ReportAction.SentinelIssueRefused | export-handler/src/actions/report.ts:10-12 | the sentinel issue id `"none"` is refused with the missing-issue message |
| UploadWorkspaceAction.Validate | export-handler/src/actions/upload-workspace.ts:10-14 | accepts exactly when the issue id is usable, and refuses otherwise with its fixed message |
| UploadWorkspaceAction.ArchiveName | export-handler/src/actions/upload-workspace.ts:17 | the archive name starts with `workspace-` and ends with `.zip` |
| UploadWorkspaceAction.Execute | export-handler/src/actions/upload-workspace.ts:15-31 | zip first, then upload under the archive name, then one comment linking the asset; the first failing step ends the run with its own error, and success returns exactly `asset_url` |
| UploadWorkspaceAction.SucceedsIffAllStepsDo | export-handler/src/actions/upload-workspace.ts:15-31 | the run succeeds exactly when all three steps succeed, and then the comment links the uploaded file name to the returned address, which is the only result key |
| CreatePrAction.Validate | export-handler/src/actions/create-pr.ts:11-18 | accepts exactly when the `pr` object is present and the token is non-empty; `pr` is checked first, each failure with its own message |
| CreatePrAction.Request | export-handler/src/actions/create-pr.ts:22-31 | the PR request carries the configuration's title, body, base, branch and repository, the resolved directory and the token, unchanged |
| CreatePrAction.GitSteps | export-handler/src/actions/create-pr.ts:28-31 | the git steps only run commands and existence tests |
| CreatePrAction.PrComment | export-handler/src/actions/create-pr.ts:33-37 | the PR comment is posted exactly when the issue id is usable; otherwise nothing happens |
| CreatePrAction.Execute | export-handler/src/actions/create-pr.ts:19-42 | a failing git step ends the run with its error and calls; otherwise the comment follows, and success returns exactly `pr_url` |
| CreatePrAction.ExecuteCallsServices | export-handler/src/actions/create-pr.ts:19-42 | every call of the handler goes to an outside service |
| CreatePrAction.TokenCheckedFirst | export-handler/src/actions/create-pr.ts:28 | when the token check fails, the run fails with its error and its calls alone, before any existence test |
| CreatePrAction.SuccessfulRunOrder | export-handler/src/actions/create-pr.ts:28-41 | on success the token check, branch preparation, push and PR creation all succeeded in that order, the PR command used the configuration's fields, and the result is exactly the PR address |
| Collaborators.Execs | export-handler/src/services/git.ts:71-72 | records one `exec` call per command, in order |
| Collaborators.FirstThrow | export-handler/src/services/git.ts:68-75 | finds the first throwing command: none exactly when all succeed, otherwise one that throws with every earlier one succeeding |
| Collaborators.RunAll | export-handler/src/services/git.ts:68-75 | commands run in order until the first throw, whose error is the outcome; the record ends at that command |
| Git.ClassifyRepoError | export-handler/src/services/git.ts:46-51 | an `Error` mentioning push permission is rethrown unchanged; anything else is wrapped with `Cannot access repository <repo>` |
| Git.CheckPushPermission | export-handler/src/services/git.ts:37-51 | one permission query is made; it passes exactly when the query answers `true` after trimming, and any failure goes through the repository-error classification |
| Git.ValidateGitHubToken | export-handler/src/services/git.ts:21-52 | a blank token is refused before any command; otherwise `gh auth status` runs first and its failure is wrapped; success needs the permission query to answer `true` after trimming |
| Git.NoPushPermissionRethrown | export-handler/src/services/git.ts:43-49 | the missing-push-permission error passes the catch block unwrapped |
| Git.DeniedPushIsReportedPlainly | export-handler/src/services/git.ts:37-51 | a permission answer other than `true` fails with exactly the push-permission error |
| Git.RepoAccessFailureWrapped | export-handler/src/services/git.ts:46-51 | a failed permission query whose message does not mention push permission is wrapped with the repository |
| Git.WrapOutcome | export-handler/src/services/git.ts:73-74 | a success passes unchanged; a failure is wrapped with the context |
| Git.PrepareGitBranch | export-handler/src/services/git.ts:58-76 | the existence test comes first and a missing directory fails with its own message; otherwise the two commands run in order and a failure is wrapped with `Git operation failed` |
| Git.PushBranch | export-handler/src/services/git.ts:78-95 | the credential setup then the push, stopping at the first failure, which is wrapped with `Git push failed` |
| Git.PrCreateCommand | export-handler/src/services/git.ts:110-113 | the `gh pr create` arguments carry the request's fields in order, run in the repository directory with the token |
| Git.CreateGitHubPr | export-handler/src/services/git.ts:107-120 | one command; success returns its trimmed output, failure is wrapped with the `gh pr create` context |
| Git.PrepareFailFast | export-handler/src/services/git.ts:58-76 | branch preparation succeeds exactly when the directory exists and both commands do; it stops at the first failing command |
| Git.PushFailFast | export-handler/src/services/git.ts:78-95 | a failing credential setup means the push is never attempted |
| LinearComment.PostLinearComment | export-handler/src/services/linear-comment.ts:10-25 | exactly one `createComment` call; success exactly when the tracker answers `success: true`; a `success: false` answer and a throw are both wrapped with the call site's prefix |
| LinearComment.FailurePrefixInjective | export-handler/src/services/linear-comment.ts:8 | the four call sites give four different failure prefixes |
| Schema.BoundIssues | export-handler/src/schema.ts:16-21 | a present string raises no bound issue exactly when its length lies within the rule's bounds; too short is reported before too long |
| Schema.RequiredString | export-handler/src/schema.ts:16 | a required string member parses exactly when present and a string, to that string, with no issues exactly when within bounds; otherwise one type issue aborts |
| Schema.OptionalString | export-handler/src/schema.ts:25 | an optional string member: absence parses to nothing without issues, a string parses to itself with bound issues, anything else aborts with a type issue |
| Schema.DefaultedString | export-handler/src/schema.ts:19 | absence becomes the default, which is then checked against the bounds like a given value; a present value is parsed as a required string |
| ExportSchema.ElementIssues | export-handler/src/schema.ts:27 | no element issue exactly when every element is one of the five action tokens |
| ExportSchema.ParseActionList | export-handler/src/schema.ts:27 | the list parses exactly when it is an array of action tokens, to the actions those tokens name, element by element; an empty list is still parsed but raises a bound issue |
| ExportSchema.FirstExclusive | export-handler/src/schema.ts:32-41 | the index of the first exclusive action: it is exclusive, and none before it is |
| ExportSchema.IssueRequiring | export-handler/src/schema.ts:57 | keeps exactly the issue-requiring actions of the list, in list order |
| ExportSchema.SuperRefine | export-handler/src/schema.ts:30-82 | the loop with its early return produces exactly the refinement's issues: the first exclusive action's issue alone, or the duplicate, issue-id, report-content and pr rules in that order |
| ExportSchemaProperties.SetSizeDiffersIff | export-handler/src/schema.ts:44 | the set of actions is smaller than the list exactly when two positions hold the same action |
| ExportSchemaProperties.ExclusiveShortCircuits | export-handler/src/schema.ts:32-41 | an exclusive action that is not alone yields exactly one issue, naming the first exclusive action, and no other rule is consulted |
| ExportSchemaProperties.RepeatedNoOpReportsOnlyExclusivity | export-handler/src/schema.ts:32-50 | `["none", "none"]` holds a duplicate, yet only the exclusivity issue is reported |
| ExportSchemaProperties.RefineIssuesEmptyIff | export-handler/src/schema.ts:30-82 | the refinement reports nothing exactly when every cross-field rule, stated on its own, holds |
| ExportSchemaProperties.IssueIdRuleListsOffenders | export-handler/src/schema.ts:53-63 | without an issue id, the issue on `linear_issue_id` quotes every issue-requiring action of the list, in order |
| ExportSchemaProperties.ReportNeedsContent | export-handler/src/schema.ts:66-72 | `report` without non-empty content raises the issue on `report_content` |
| ExportSchemaProperties.CreatePrNeedsPr | export-handler/src/schema.ts:75-81 | `create_pr` without `pr` raises the issue on `pr` |
| ExportSchemaProperties.ParsePrIff | export-handler/src/schema.ts:15-22 | the `pr` object parses cleanly exactly when it conforms to its bounds, with `base` defaulting to `main`; an abort always carries an issue |
| ExportSchemaProperties.ParseActionListValue | export-handler/src/schema.ts:27 | a parsed action list is the list its tokens denote; an abort always carries an issue |
| ExportSchemaProperties.ParseOptionalPrIff | export-handler/src/schema.ts:29 | an absent `pr` is accepted; a present one parses cleanly exactly when it conforms |
| ExportSchemaProperties.ParseFieldsIff | export-handler/src/schema.ts:24-29 | the field schema reports nothing exactly when every field conforms to its type and bounds |
| ExportSchemaProperties.ParseFieldsValue | export-handler/src/schema.ts:24-29 | a cleanly parsed configuration carries the document's own values |
| ExportSchemaProperties.ValidateOkIff | export-handler/src/schema.ts:24-82 | the validator accepts a document exactly when it conforms to the declarative reference definition (fields and cross-field rules) |
| ExportSchemaProperties.RejectionHasIssues | export-handler/src/schema.ts:24-82 | a rejected document always comes with at least one issue |
| ExportSchemaProperties.AcceptedConfig | export-handler/src/schema.ts:24-82 | an accepted configuration is well formed, carries the document's summary and actions, and its `pr.base` is `main` exactly when the document leaves it out |
| ExportSchemaProperties.PrRoundTrip | export-handler/src/schema.ts:15-22 | a well-formed `pr` written out as a document parses back to itself |
| ExportSchemaProperties.ActionsRoundTrip | export-handler/src/schema.ts:27 | a list of actions written as tokens parses back to itself |
| ExportSchemaProperties.ParseFieldsRoundTrip | export-handler/src/schema.ts:24-29 | a well-formed configuration written out parses back to itself without issues |
| ExportSchemaProperties.WellFormedRoundTrip | export-handler/src/schema.ts:24-82 | a well-formed configuration written out validates to itself |
| ExportSchemaProperties.RevalidationIsIdentity | export-handler/src/schema.ts:24-82 | re-validating an accepted configuration yields the same configuration, `pr.base` included |
| Text.PathJoin | export-handler/src/config.ts:31-34 | Node's `path.join` of two segments: both non-empty are joined by one `/`, an empty one is dropped, and two empty ones give `.` |
| AppConfig.DerivePaths | export-handler/src/config.ts:28-35 | the configuration file under the work directory (its bare name when the work directory is empty, as `path.join` drops empty segments); the copied configuration, the results and the archive under the temporary directory |
| AppConfig.OrDefault | export-handler/src/config.ts:40-41 | an unset or empty variable gives the fallback, any other value is kept |
| AppConfig.DeriveFallbackArgoPaths | export-handler/src/config.ts:37-46 | the two configuration paths from the raw environment, with empty directories replaced by the defaults |
| AppConfig.ParseConfigSucceedsIff | export-handler/src/config.ts:5-11 | the environment is accepted exactly when `LINEAR_API_KEY` is set and non-empty |
| AppConfig.ParseConfigValues | export-handler/src/config.ts:48-59 | an accepted configuration takes each variable as it is, with the directory defaults only for unset variables |
| AppConfig.ParseConfigRejection | export-handler/src/config.ts:8 | a missing key raises a type issue; an empty key raises the schema's `LINEAR_API_KEY is required` issue |
| AppConfig.EmptyWorkDirReadings | export-handler/src/config.ts:6-41 | an empty `WORK_DIR` is kept by the schema, so the configuration path is the bare relative name `export_config.json`, but replaced by `/work` in the fallback paths, so the two readings give different configuration paths |
| Orchestrator.ContextFor | export-handler/src/orchestrator.ts:29-34 | the shared context carries the configuration, its issue id and the dependencies unchanged |
| Orchestrator.Step | export-handler/src/orchestrator.ts:39-47 | a validation throw is wrapped with `Validation failed for action '<action>'` and nothing is executed; otherwise execution's outcome passes through unchanged after one validate and one execute marker |
| Orchestrator.RunActionLoop | export-handler/src/orchestrator.ts:36-51 | the loop's outcome and calls are those of the recursive run over the actions from the empty result |
| Orchestrator.ProcessExport | export-handler/src/orchestrator.ts:12-52 | the run's outcome and calls are those of the summary gate followed by the action loop |
| Orchestrator.MergeLaterWins | export-handler/src/orchestrator.ts:47 | after merging, a key holds the value of the last result that has it, an untouched key keeps its value, and no other key appears |
| Orchestrator.ActionsSucceed | export-handler/src/orchestrator.ts:38-51 | the loop succeeds exactly when every action's validation and execution succeed; then every action was validated and executed in list order and the result is the left-to-right merge |
| Orchestrator.FailsAtFirstFailure | export-handler/src/orchestrator.ts:38-49 | at the first failing action the run ends with that action's error, and nothing after it is validated or executed |
| Orchestrator.SummaryGate | export-handler/src/orchestrator.ts:17-26 | with a usable issue id the run starts with the summary comment and stops if it fails; without one the run is the action loop alone |
| Orchestrator.NoSummaryWithoutIssue | export-handler/src/orchestrator.ts:17-26 | without a usable issue id the first call of the run is the first action's validation |
| Orchestrator.ProcessExportSucceeds | export-handler/src/orchestrator.ts:12-52 | a run succeeds exactly when the summary (if any) is posted and every action succeeds; then the result is the merge of the handlers' results, each action validated then executed in order |
| Orchestrator.ValidationFailureStopsRun | export-handler/src/orchestrator.ts:20-45 | whether or not a summary is posted first (when it is, successfully), a validation failure at action k ends the run with the wrapped error; action k is not executed and no later action runs |
| Orchestrator.ExecuteFailurePropagates | export-handler/src/orchestrator.ts:20-46 | whether or not a summary is posted first (when it is, successfully), an execution failure at action k ends the run with exactly that error, unwrapped, and no later action is validated |
| Orchestrator.SummaryAddsNoMarkers | export-handler/src/orchestrator.ts:20-24 | a successfully posted summary leaves the run's outcome and its sequence of validations and executions those of the action loop alone |
| ToolUtils.McpSuccess | mcp-server/src/tools/tool-utils.ts:4-9 | the success response holds one text item, the data pretty-printed with an indent of two, has no error flag and carries the metadata given |
| ToolUtils.ErrorBody | mcp-server/src/tools/tool-utils.ts:11-16 | the error body is an object whose `success` is false and whose `error` is the message |
| ToolUtils.McpError | mcp-server/src/tools/tool-utils.ts:11-16 | the error response holds the compact error body as its one text item, is flagged as an error and carries no metadata |
| ToolUtils.McpErrorText | mcp-server/src/tools/tool-utils.ts:11-16 | the error text is exactly `{"success":false,"error":` followed by the message as a JSON string and `}` |
| ToolUtils.IssueDetails | mcp-server/src/tools/tool-utils.ts:25-28 | a single validation issue is reported as its dotted path, a colon and a space, and its message |
| ToolUtils.CaughtMessage | mcp-server/src/tools/tool-utils.ts:25-34 | a validation error becomes "Validation failed: " and its issue details, an Error its own message, anything else "Unknown error occurred" |
| ToolUtils.Catch | mcp-server/src/tools/tool-utils.ts:18-37 | a handler's returned response passes through unchanged, a thrown value becomes the error response for its message, and the requests made before the throw are kept |
| ToolUtils.Invoke | mcp-server/src/tools/tool-utils.ts:39-54 | arguments the schema refuses give the validation error response without running the handler; accepted arguments run the handler on the parsed value under the error wrapper |
| ToolUtils.DefineTool | mcp-server/src/tools/tool-utils.ts:39-54 | a defined tool keeps its name and description, its schema accepts exactly what the parser accepts, and its handler validates before running |
| ToolUtils.RefusedArgumentsMakeNoRequests | mcp-server/src/tools/tool-utils.ts:44-50 | a defined tool given arguments its schema refuses answers with an error response and makes no request at all |
| McpValidation.ValidateGitUrl | mcp-server/src/tools/validation.ts:5-14 | a URL is accepted exactly when it neither starts with a dash nor holds a control character; the dash check comes first, each with its own message |
| McpValidation.ValidateDirectoryName | mcp-server/src/tools/validation.ts:20-35 | a name is accepted exactly when it is not `.` or `..`, holds no slash or backslash, does not start with a dash and holds no control character; the checks run in that order, each with its own message |
| McpValidation.AcceptedNameIsOneSegment | mcp-server/src/tools/validation.ts:20-35 | every accepted directory name is a single path segment: no separator, no control character, not a dot name, no leading dash |
| SessionService.SessionIdOf | mcp-server/src/services/session.ts:20 | a session id is found exactly when the parsed value has a `session_id` member that is a string, and it is that string |
| SessionService.SessionService.constructor | mcp-server/src/services/session.ts:8-11 | the service keeps the work directory and the file reader it is given |
| SessionService.SessionService.ReadSessionId | mcp-server/src/services/session.ts:13-24 | a read failure gives no session; a session id is found exactly when the file's trimmed first line is non-empty, parses, and holds a string `session_id`, and then it is that string |
| SessionService.LaterLinesIgnored | mcp-server/src/services/session.ts:17 | only the text before the first line break is looked at |
| SessionService.BlankContentHasNoSession | mcp-server/src/services/session.ts:17-18 | an output file holding only white space has no session, whatever the parser would do |
| ServiceTypes.ParsePriority | mcp-server/src/services/types.ts:3 | the priority field accepts exactly the five tokens and each gives the priority named by it |
| ServiceTypes.CommentsToJson | mcp-server/src/services/types.ts:40-47 | the comments' JSON form is a list with one element per comment |
| ServiceTypes.IssueJsonId | mcp-server/src/services/types.ts:23-38 | the issue's JSON form carries the issue's id as its `id` member |
| LinearService.PriorityValue | mcp-server/src/services/linear.ts:17-23 | every priority maps into 0..4, and only `none` maps to 0 |
| LinearService.PriorityValueInjective | mcp-server/src/services/linear.ts:17-23 | distinct priorities map to distinct Linear numbers |
| LinearService.ToIssueResult | mcp-server/src/services/linear.ts:85-104 | the issue result copies the issue's id, identifier, title, description, state, labels, assignee, due date and estimate |
| LinearService.ToCommentResult | mcp-server/src/services/linear.ts:126-133 | the comment result copies the comment's id, body, author and URL |
| LinearService.LinearService.constructor | mcp-server/src/services/linear.ts:38-43 | the service keeps the client, team, default project and default label it is given |
| LinearService.LinearService.CreateInput | mcp-server/src/services/linear.ts:46-57 | the creation request carries the team, the title, "## Reason" and the reason as description, the priority's number (medium, 3, when absent), and the default project and label exactly when they are non-empty |
| LinearService.LinearService.CreateFeatureRequest | mcp-server/src/services/linear.ts:45-70 | one creation request is made; the result is the created issue exactly when the client returns one, a missing issue throws "Failed to create Linear issue", and a client error passes through |
| LinearService.LinearService.GetIssue | mcp-server/src/services/linear.ts:72-105 | one issue request is made; the result is the issue's fields exactly when it has a state, a missing state throws "Failed to fetch issue state", and a client error passes through |
| LinearService.LinearService.CreateComment | mcp-server/src/services/linear.ts:107-117 | one comment request is made; the comment id is returned exactly when the payload succeeded and holds a comment, otherwise the two failures throw their own messages |
| LinearService.LinearService.GetIssueComments | mcp-server/src/services/linear.ts:119-138 | the issue is fetched, then its comments; the result has one entry per comment, in order, each carrying that comment's fields; a failure of either request passes through |
| McpGetIssue.ParseIssueId | mcp-server/src/tools/get-issue.ts:4-9 | the arguments are accepted exactly when they are an object whose `issue_id` is a non-empty string, and then the id is that string; a refusal lists at least one issue |
| McpGetIssue.Handle | mcp-server/src/tools/get-issue.ts:16-19 | the handler makes one lookup; it succeeds exactly when the lookup does, with the issue as data and the issue's own id as metadata, and a lookup error passes through |
| McpGetIssue.MetaNamesFoundIssue | mcp-server/src/tools/get-issue.ts:11-20 | for any accepted arguments the tool makes one lookup of the given id; a found issue's id is both the metadata and the answer's `issue.id`; a failed lookup gives an error response without metadata |
| McpGetIssueComments.Handle | mcp-server/src/tools/get-issue-comments.ts:16-20 | the handler makes one request for the comments; it succeeds exactly when the request does, with the comments as data and no metadata, and an error passes through |
| McpGetIssueComments.AllCommentsReturned | mcp-server/src/tools/get-issue-comments.ts:11-21 | for any accepted arguments the tool makes one request, never attaches metadata, and answers with one array element per comment the service returned |
| McpGetExportActions.ParseEmpty | mcp-server/src/tools/get-export-actions.ts:9 | the empty object schema accepts exactly the objects, and refuses anything else with a single type issue |
| McpGetExportActions.Handle | mcp-server/src/tools/get-export-actions.ts:10-12 | the handler answers with the catalogue, no metadata and no request |
| McpGetExportActions.CatalogueIndependentOfInput | mcp-server/src/tools/get-export-actions.ts:5-13 | any object argument and any context give the same answer, which is not an error, makes no request, and lists one entry per export action |
| McpRequestFeature.ParsePriorityField | mcp-server/src/tools/request-feature.ts:17-21 | an absent priority becomes medium; a present one is accepted exactly when it is one of the five tokens, a non-string is a type issue and an unknown string an enumeration issue |
| McpRequestFeature.ParseArgs | mcp-server/src/tools/request-feature.ts:4-22 | the arguments are accepted exactly when they are an object whose title is a string of 5 to 200 characters, whose reason is a string of 1 to 10000 characters and whose priority field is accepted; the parsed values are those strings and that priority |
| McpRequestFeature.Handle | mcp-server/src/tools/request-feature.ts:29-48 | the handler files one feature request with the title, reason and priority; on success the data names the created issue and the metadata carries its id; an error passes through |
| McpRequestFeature.CreatedBodyCarriesId | mcp-server/src/tools/request-feature.ts:36-45 | the answer's data says `success: true` and its `issue.id` is the created issue's id |
| McpRequestFeature.AbsentPriorityFiledAsMedium | mcp-server/src/tools/request-feature.ts:17-21 | a request without a priority is filed as medium, which the issue tracker maps to 3 |
| McpRequestFeature.AcceptedRequestFiledOnce | mcp-server/src/tools/request-feature.ts:24-49 | accepted arguments make exactly one request carrying the given title and reason; a created issue gives a non-error answer naming it in the metadata, a failure an error answer without metadata |
| McpGitClone.UrlRefinementsMatchValidation | mcp-server/src/tools/git-clone.ts:14-15 | the schema's URL refinements find a problem exactly when `validateGitUrl` does, and the first one carries the same message |
| McpGitClone.DirectoryRefinementsMatchValidation | mcp-server/src/tools/git-clone.ts:25-28 | the schema's directory refinements find a problem exactly when `validateDirectoryName` does, and the first one carries the same message |
| McpGitClone.ParseArgs | mcp-server/src/tools/git-clone.ts:10-31 | accepted arguments have a non-empty URL that passes the URL checks, a branch of at most 256 characters, and a directory of at most 256 characters that passes the directory checks; a refusal lists at least one issue |
| McpGitClone.StripTrailingSlashes | mcp-server/src/tools/git-clone.ts:34 | the result is a prefix of the input that does not end in a slash, and everything removed was a slash |
| McpGitClone.AfterLastSlash | mcp-server/src/tools/git-clone.ts:35 | the result is a slash-free suffix of the input, preceded by a slash whenever it is not the whole input |
| McpGitClone.InferDirectoryFromUrl | mcp-server/src/tools/git-clone.ts:33-36 | an inferred directory never holds a slash |
| McpGitClone.InferredFromLastSegment | mcp-server/src/tools/git-clone.ts:33-36 | a URL ending in `/name`, with any number of trailing slashes, gives the directory `name` |
| McpGitClone.InferredFromGitSegment | mcp-server/src/tools/git-clone.ts:33-36 | a URL ending in `/name.git`, with any number of trailing slashes, gives the directory `name` |
| McpGitClone.CloneArgv | mcp-server/src/tools/git-clone.ts:56-60 | git's arguments start with `clone --progress`, carry `--branch` and the branch only when the branch is non-empty, and end with the URL and the directory |
| McpGitClone.Handle | mcp-server/src/tools/git-clone.ts:43-72 | the handler first checks whether the target exists; an existing target is refused with "Directory already exists: " and the name and git is not run; otherwise git runs in the work directory, and the answer is a success exactly when git succeeds |
| McpGitClone.InferredDashDirectoryReachesGit | mcp-server/src/tools/git-clone.ts:46-60 | as written, an accepted URL whose inferred directory starts with a dash gets that directory passed to git unchecked, though the directory check would refuse it |
| McpGitClone.AsWrittenRunsHandle | mcp-server/src/tools/git-clone.ts:38-73 | on accepted arguments the tool as written runs its handler under the error wrapper |
| McpGitClone.DashNameRefused | mcp-server/src/tools/validation.ts:20-35 | a name starting with a dash never passes the directory check |
| McpGitClone.DashUrlExample | mcp-server/src/tools/git-clone.ts:33-46 | the URL `https://example.com/--bare` is accepted and its inferred directory is `--bare` |
| McpGitClone.HandleChecked | mcp-server/src/tools/git-clone.ts:46 | an inferred directory that fails the directory check is refused with that check's message before anything runs; every other case behaves as the handler as written |
| McpGitClone.CheckedHandlerRunsSafeClone | mcp-server/src/tools/git-clone.ts:43-72 | with the check in place, the only command run is the clone, and only for a directory that passes every directory check |
| McpGitClone.CheckedCloneArgumentsAreSafe | mcp-server/src/tools/git-clone.ts:38-73 | for any arguments, every command the corrected tool runs is git, its URL passes the URL checks, its directory passes the directory checks, and it runs in the work directory with a 300000 ms timeout and a 10 MiB buffer |
| McpGitClone.DashUrlAccepted | mcp-server/src/tools/git-clone.ts:10-31 | the schema accepts `{url: "https://example.com/--bare"}`, with no branch and no directory |
| McpGitClone.DashUrlInfersDashDirectory | mcp-server/src/tools/git-clone.ts:33-36 | the directory inferred from `https://example.com/--bare` is `--bare` |
| McpSetExportConfig.RequirementIssues | mcp-server/src/tools/set-export-config.ts:72-83 | the requirement table yields at most one issue per entry |
| McpSetExportConfig.ScanExclusive | mcp-server/src/tools/set-export-config.ts:38-47 | the scan finds an action exactly when an exclusive action shares the list with others, and what it finds is the first exclusive action |
| McpSetExportConfig.CheckRequirements | mcp-server/src/tools/set-export-config.ts:72-83 | the loop over the requirement table reports exactly the table's issues, in table order |
| McpSetExportConfig.SuperRefine | mcp-server/src/tools/set-export-config.ts:36-84 | the refinement as run, with its early return after the exclusivity issue, reports exactly the issues of the refinement's rules in order |
| McpSetExportConfig.ReportFieldMissing | mcp-server/src/tools/set-export-config.ts:75 | `report_content` counts as missing exactly when it is absent or empty |
| McpSetExportConfig.PrFieldMissing | mcp-server/src/tools/set-export-config.ts:75 | `pr` counts as missing exactly when it is absent |
| McpSetExportConfig.ReportRequirementMessage | mcp-server/src/tools/set-export-config.ts:77-81 | the report entry's issue is on `report_content` with the message "report_content is required when actions include 'report'" |
| McpSetExportConfig.PrRequirementMessage | mcp-server/src/tools/set-export-config.ts:77-81 | the create_pr entry's issue is on `pr` with the message "pr is required when actions include 'create_pr'" |
| McpSetExportConfig.RequirementsUnfold | mcp-server/src/tools/export-constants.ts:45-54 | the table's rules are the report-content rule followed by the pr rule |
| McpSetExportConfig.CopiesAgree | mcp-server/src/tools/set-export-config.ts:36-84 | the tool's refinement and the export handler's report the same number of issues on the same paths in the same order, identical except for the wording on `pr` |
| McpSetExportConfig.ValidateAgrees | mcp-server/src/tools/set-export-config.ts:15-84 | the tool accepts exactly the configurations the export handler accepts, with the same parsed value |
| McpSetExportConfig.Handle | mcp-server/src/tools/set-export-config.ts:91-100 | the handler writes the parsed configuration, indented by two, to `export_config.json` in the work directory; it succeeds exactly when the write does, and a write error passes through |
| McpSetExportConfig.SavedConfigRoundTrips | mcp-server/src/tools/set-export-config.ts:86-101 | the tool writes exactly when the export handler would accept the arguments; it writes one file, and that file's document validates back to the same configuration |
| McpSetExportConfig.RefusedConfigNotWritten | mcp-server/src/tools/set-export-config.ts:86-101 | a configuration the export handler refuses gets an error response and nothing is written |
| McpExportConstants.InSyncWithExportHandler | mcp-server/src/tools/export-constants.ts:3-20 | the server's action tokens, file name, exclusive and issue-requiring actions, and every length limit equal the export handler's |
| McpExportConstants.RequiredKeysOfMembers | mcp-server/src/tools/export-constants.ts:34-38 | a key is listed exactly when the shape declares it as not optional |
| McpExportConstants.PrRequiredKeys | mcp-server/src/tools/export-constants.ts:24-31 | the required keys of the `pr` object are title, body, branch, repo and repo_path, in that order; `base` is not required |
| McpExportConstants.RequiredKeysAreRequired | mcp-server/src/tools/export-constants.ts:24-31 | a `pr` object missing any required key is refused by the `pr` schema |
| McpExportConstants.PrefixAll | mcp-server/src/tools/export-constants.ts:52 | each path is the prefix followed by the key at the same position |
| McpExportConstants.RequiredFieldsOf | mcp-server/src/tools/export-constants.ts:56-86 | an action without an entry in the requirement table requires no field |
| McpExportConstants.ExportActions | mcp-server/src/tools/export-constants.ts:56-86 | the catalogue has one entry per action, in declaration order |
| McpExportConstants.CatalogueFields | mcp-server/src/tools/export-constants.ts:56-86 | the catalogue's types are the action tokens in order; report requires `report_content`; none, upload_workspace and continue require nothing |
| McpExportConstants.CreatePrRequiredFields | mcp-server/src/tools/export-constants.ts:50-53 | create_pr requires pr.title, pr.body, pr.branch, pr.repo and pr.repo_path |
| McpExportConstants.CatalogueJson | mcp-server/src/tools/get-export-actions.ts:11 | the catalogue's JSON form is a list with one element per action |
| McpPostToolHooks.SessionCommentHook | mcp-server/src/hooks/post-tool-hooks.ts:11-23 | the hook never fails; a response that is an error or names no issue makes no request; otherwise the session is read, and only a known session leads to one comment on the named issue carrying the session id |
| McpPostToolHooks.RunPostToolHooks | mcp-server/src/hooks/post-tool-hooks.ts:25-37 | the runner's requests are every hook's requests in hook order, and its logged failures are the values the hooks threw, in order |
| McpPostToolHooks.HooksTraceAppend | mcp-server/src/hooks/post-tool-hooks.ts:30-36 | running two lists of hooks one after the other makes the requests and failures of running their concatenation |
| McpPostToolHooks.ThrowingHookIsIsolated | mcp-server/src/hooks/post-tool-hooks.ts:31-35 | a hook that throws does not stop the next one: its requests still follow, and only the first hook's failure is logged |
| McpPostToolHooks.CommentPostedIff | mcp-server/src/hooks/post-tool-hooks.ts:11-23 | a comment is posted exactly when the response names an issue and the session is known, and it goes to that issue with the session comment body |
| McpServerModule.Strip | mcp-server/src/server.ts:32 | the client's result keeps the response's content and error flag |
| McpServerModule.FindTool | mcp-server/src/server.ts:23-41 | the lookup finds the first tool registered under the name, and finds none exactly when no tool has that name |
| McpServerModule.McpServer.constructor | mcp-server/src/server.ts:15-44 | every tool is registered in order under its own name, description and schema; the hooks are the ones given, or none |
| McpServerModule.McpServer.RegisterTool | mcp-server/src/server.ts:24-27 | one more registration and its tool are appended |
| McpServerModule.McpServer.CallTool | mcp-server/src/server.ts:27-40 | a call answers the handler's response without its metadata and makes the handler's requests followed by the hooks' requests on the full response |
| McpServerModule.FindsRegisteredTool | mcp-server/src/server.ts:23-41 | among tools with distinct names, each tool's own name finds that tool |
| McpServerModule.HooksSeeFullResponse | mcp-server/src/server.ts:31-39 | with the session-comment hook, a response naming an issue gets the session comment on that issue after the handler's own requests, while the caller gets the response without its metadata |
| McpToolRegistry.DefaultTools | mcp-server/src/tools/registry.ts:9-18 | the default tools are request_feature, get_export_actions, set_export_config, get_issue, get_issue_comments and git_clone as written, in that order, with distinct names |
| McpToolRegistry.CloneIsSixth | mcp-server/src/tools/registry.ts:16 | the server finds `git_clone` at the sixth place, and it is the tool as written |
| McpToolRegistry.RegisteredCloneTrace | mcp-server/src/tools/registry.ts:16 | through the server, `git_clone` on accepted arguments makes exactly the requests of the as-written handler; no hook adds one |
| McpToolRegistry.RegisteredCloneTakesDashDirectory | mcp-server/src/tools/git-clone.ts:46-60 | through the server as wired, an accepted URL whose inferred directory begins with a dash gets that directory, which fails the directory check, as git's last argument |
| McpToolRegistry.QuietResponseNoHookCalls | mcp-server/src/hooks/post-tool-hooks.ts:12 | a response that names no issue gets no request from the default hooks |
| McpToolRegistry.CheckedTools | mcp-server/src/tools/registry.ts:9-18 | the default list with the corrected `git_clone` in sixth place, the other five unchanged, names still distinct |
| McpToolRegistry.GetIssueSessionComment | mcp-server/src/index.ts:50-55 | a successful get_issue call with a known session makes the lookup, reads the session, then comments on the issue found, by its id |
| McpToolRegistry.CommentsCallNeverComments | mcp-server/src/tools/get-issue-comments.ts:16-20 | a get_issue_comments call makes only its own request: its answer has no metadata, so no session comment follows |
| McpToolRegistry.ErrorResponsesNeverComment | mcp-server/src/hooks/post-tool-hooks.ts:12 | a tool call that answers with an error makes no request beyond the handler's own |
| RouterConfig.EnvGet | router/src/router/config.py:22 | a set variable gives its value, even when empty; only an unset one gives the fallback |
| RouterConfig.PyJoin | router/src/router/config.py:24-25 | an absolute second part replaces the first; otherwise a separator is inserted only when the first part is non-empty and does not already end in one |
| RouterConfig.FromEnv | router/src/router/config.py:20-26 | the export configuration path and the transcript directory are the work directory, `/work` by default, joined with `export_config.json` and `.transcripts` |
| RouterConfig.UploadConfigFromEnv | router/src/router/config.py:36-43 | there is no upload configuration exactly when the bucket variable is unset or empty; otherwise the bucket is that value and the region is `AWS_REGION`, by default `ap-northeast-2` |
| RouterConfig.FilenameInSyncWithExportHandler | router/src/router/config.py:8-9 | the router looks for the same configuration file name as the export handler writes |
| RouterConfig.PathsUnderWorkDir | router/src/router/config.py:20-26 | without `WORK_DIR` the paths are `/work/export_config.json` and `/work/.transcripts`; with a work directory not ending in a separator they are its two children; the two paths always differ |
| RouterLogic.ContainsContinue | router/src/router/logic.py:34 | a list contains "continue" as an element, a string as a substring, an object as a key; searching null, a boolean or a number raises |
| RouterLogic.ShouldContinue | router/src/router/logic.py:12-49 | configuration text that does not parse stops the loop as "unparseable" without touching a file; the only file request ever made is the removal of the configuration file, and it comes only with the "continue action requested" decision |
| RouterLogic.ContinueActionWins | router/src/router/logic.py:31-41 | a configuration whose actions list contains "continue" continues whatever the depth, and its file is removed |
| RouterLogic.ConfiguredActions | router/src/router/logic.py:32 | the object's `actions`, or an empty list when it has none |
| RouterLogic.ObjectConfigDecides | router/src/router/logic.py:31-43 | a non-empty object decides whatever the depth: "continue" found in its actions continues and removes the file, not found stops as "export_config provided", and unsearchable actions raise that error; only the continue case touches a file |
| RouterLogic.OtherConfigStops | router/src/router/logic.py:31-43 | a non-empty object whose actions list lacks "continue" (such as `["report"]`), has no actions, or has an empty list stops the loop whatever the depth, touching no file |
| RouterLogic.UnsearchableActionsRaise | router/src/router/logic.py:32-34 | actions given as null, a boolean or a number raise a TypeError, touching no file |
| RouterLogic.NonObjectConfigRaises | router/src/router/logic.py:31-32 | a configuration Python reads as true that is not an object raises an AttributeError for `get`, touching no file |
| RouterLogic.NoConfigDepthRule | router/src/router/logic.py:45-49 | without a configuration (blank text, an empty object or any other value Python reads as false) the loop continues exactly when the depth is below the maximum minus one, with no file touched; the stop reason names the depth and the maximum |
| RouterLogic.FalsyConfigAnswer | router/src/router/logic.py:31 | parsed data that Python reads as false skips the `actions` search and gets the depth rule's answer |
| RouterLogic.BlankIsNoConfig | router/src/router/logic.py:26 | blank configuration text counts as an empty configuration without being parsed |
| RouterLogic.WriteOutput | router/src/router/logic.py:52-56 | the output file afterwards holds exactly the value and a newline, whatever it held before; an unwritable path raises and changes nothing |
| TranscriptUpload.LastIndexOf | router/src/router/transcript_upload.py:54 | the position found holds the character and no later position does; nothing is found exactly when the character is absent |
| TranscriptUpload.Basename | router/src/router/transcript_upload.py:54 | a base name holds no separator |
| TranscriptUpload.KeptFiles | router/src/router/transcript_upload.py:43-47 | the kept paths are no more than the listed names |
| TranscriptUpload.FindTranscriptFiles | router/src/router/transcript_upload.py:39-47 | a missing directory has no transcripts; otherwise the transcripts are the directory's main-transcript names, joined to it, in listing order |
| TranscriptUpload.KeptFilesIff | router/src/router/transcript_upload.py:43-47 | a path is kept exactly when it joins the directory with a listed name ending in `.jsonl` that is not `.jsonl` itself |
| TranscriptUpload.SubagentEntries | router/src/router/transcript_upload.py:61-68 | a session contributes at most one subagent entry per listed name |
| TranscriptUpload.EntriesFor | router/src/router/transcript_upload.py:54-68 | a main transcript's entries start with itself, keyed by its session id and `.jsonl` |
| TranscriptUpload.CollectSubagents | router/src/router/transcript_upload.py:61-68 | the loop collects exactly the session's subagent entries, in listing order |
| TranscriptUpload.CollectUploads | router/src/router/transcript_upload.py:50-69 | the loop collects exactly every transcript's entries, transcript by transcript |
| TranscriptUpload.SubagentKeysUnderSession | router/src/router/transcript_upload.py:62-67 | every subagent entry comes from a listed `.jsonl` name, is keyed `<session id>/<name>` and points at that name in the subagent directory |
| TranscriptUpload.SubagentNamesAllKeyed | router/src/router/transcript_upload.py:61-67 | conversely, every listed `.jsonl` name in the subagent directory gets the entry keyed `<session id>/<name>` that points at it |
| TranscriptUpload.MainKeyIsSessionId | router/src/router/transcript_upload.py:54-57 | the main transcript `<session id>.jsonl` is keyed `<session id>.jsonl`: its session id is its name without the extension |
| TranscriptUpload.UploadOne | router/src/router/transcript_upload.py:72-79 | the file is read first; a failed read raises and puts nothing; otherwise one put carries the bucket, the key, the file's content and the JSON-lines content type, and its outcome is the upload's |
| TranscriptUpload.FirstFailure | router/src/router/transcript_upload.py:122-123 | there is no failure exactly when every entry's upload succeeds |
| TranscriptUpload.UploadAll | router/src/router/transcript_upload.py:115-123 | every entry is uploaded whatever happened to the others, and the failure raised is the first in list order |
| TranscriptUpload.UploadTranscripts | router/src/router/transcript_upload.py:82-126 | without transcripts nothing is requested and the count is 0; otherwise every entry is uploaded, and the result is the number of entries exactly when no upload failed, else the first failure |
| TranscriptUpload.EveryEntryAttempted | router/src/router/transcript_upload.py:118-121 | the requests include a read of every entry's file |
| TranscriptUpload.PutsCarryKeyAndType | router/src/router/transcript_upload.py:77-79 | every put goes to the bucket, with one of the entries' keys and the content type `application/jsonl` |
| RouterCli.Decide | router/src/router/cli.py:19-45 | refused arguments, a negative depth and a maximum below 1 end with status 2 before anything is touched; a completed decision leaves the output file holding "true" or "false" and a newline, as the decision says |
| RouterCli.AfterRemovals | router/src/router/logic.py:36-40 | the configuration file is gone exactly when it was absent already or its removal was requested and the file system allows it; a failed removal leaves it; no other file changes |
| RouterCli.DecideUnfolds | router/src/router/cli.py:32-45 | on valid arguments a raising decision ends the run with its error, and otherwise the answer is written, after the removal, to a file system that is still writable where it was |
| RouterCli.WriteDecision | router/src/router/cli.py:45 | the write completes exactly when the output path is writable, and the file then holds "true" or "false" and a newline, as the decision says; a failed write raises |
| RouterCli.UploadQuietly | router/src/router/cli.py:51-64 | without a bucket, and with a bucket but no transcript files, nothing is requested; otherwise every transcript entry is attempted, and no failure escapes |
| RouterCli.MainFlow | router/src/router/cli.py:19-48 | the decision and its output are those of `Decide`; the upload runs only after a completed decision, makes exactly the requests of `_upload_transcripts`, and never changes how the run ends |
| RouterCli.FirstIndex | router/src/router/cli.py:70 | the position found holds the value and no earlier position does; nothing is found exactly when the value is absent |
| RouterCli.FallbackOutput | router/src/router/cli.py:67-76 | "false" and a newline go to the path after the first `--output`; a missing flag, a flag at the end, an empty path and an unwritable path leave the files as they were |
| RouterCli.Run | router/src/router/cli.py:79-88 | a completed run ends with 0 and an exit keeps its status, both with the decision's files; any other crash writes the fallback output and ends with 1 |
| RouterCli.InvalidDepthWritesNothing | router/src/router/cli.py:27-30 | an invalid depth or maximum ends with status 2, no file request and unchanged files |
| RouterCli.OutputIsDecision | router/src/router/cli.py:32-45 | with a writable output path, a run completes exactly when the decision does, and the output then says "true" exactly when the decision is to continue |
| RouterCli.FallbackUsesFirstOutput | router/src/router/cli.py:70-73 | when `--output` is repeated, the fallback goes to the path after the first one |
| MockApi.CallsJson | e2e/mock-api/index.ts:122-124 | the assertions list has one element per recorded call, in recording order, each that call's JSON form |
| MockApi.IsMutationIffPattern | e2e/mock-api/index.ts:27-29 | a query counts as a mutation exactly when, after leading white space, it has the word "mutation" in any letter case, followed by the end or a non-word character |
| MockApi.KeywordThenSeparator | e2e/mock-api/index.ts:27-29 | white space, "mutation" in any letter case, then a non-word character always makes a mutation |
| MockApi.LongerWordIsQuery | e2e/mock-api/index.ts:27-29 | "mutation" followed directly by a word character, as in "mutations", is not a mutation |
| MockApi.MutationAnswers | e2e/mock-api/index.ts:31-55 | a mutation's answer has `commentCreate` exactly when the operation is createComment or CreateComment, and `mutationResult` otherwise; the created comment's id is `mock-comment-id` |
| MockApi.QueryAnswers | e2e/mock-api/index.ts:57-83 | a query's answer has `issue` exactly when the operation is issue, Issue or GetIssue, and that issue's id is `mock-issue-id`; any other query gets an empty `data` object |
| MockApi.ResolvedOperationName | e2e/mock-api/index.ts:103 | a present operation name is kept, including an explicit null; an absent one becomes null |
| MockApi.RecordOf | e2e/mock-api/index.ts:98-111 | a request is recorded exactly when its query is truthy, once, with its body, the time, the resolved operation name, and the mutation type exactly when the query reads as a mutation |
| MockApi.GraphqlResponse | e2e/mock-api/index.ts:92-119 | the status is 400 exactly when the query is missing or falsy, and 200 otherwise |
| MockApi.RecordedIffAnswered | e2e/mock-api/index.ts:92-119 | a request is recorded exactly when it is answered with 200, and then the answer is the one for its recorded type and operation name |
| MockApi.Serve | e2e/mock-api/index.ts:87-138 | a GraphQL request gets the GraphQL answer, keeps every earlier record and adds at most one at the end; a reset empties the store; the assertions route answers 200 with the recorded calls, in order, and it and the health route leave the store unchanged |
| MockApi.StoreAppendsInOrder | e2e/mock-api/index.ts:106-111 | without a reset, the store after a run of requests is the earlier store followed by each request's record, in request order |
| MockApi.ResetForgetsEarlier | e2e/mock-api/index.ts:127-130 | after a reset, the store holds only what the requests after it recorded, whatever came before |
| MockApi.AssertionsShowOnlyLaterCalls | e2e/mock-api/index.ts:121-130 | `GET /assertions` after a reset lists exactly the calls the later requests recorded, in order, whatever was recorded before |
| MockApi.ResetIdempotent | e2e/mock-api/index.ts:21-23 | resetting twice is resetting once |
| MockApi.CallStore.constructor | e2e/mock-api/index.ts:15 | the store starts empty |
| MockApi.CallStore.GetCalls | e2e/mock-api/index.ts:17-19 | the recorded calls are returned as they are |
| MockApi.CallStore.ResetCalls | e2e/mock-api/index.ts:21-23 | the store is empty afterwards |
| MockApi.CallStore.Push | e2e/mock-api/index.ts:106-111 | one call is appended and the rest is kept |
| MockApi.MockApp.constructor | e2e/mock-api/index.ts:87-89 | the app serves from the store it is given |
| MockApi.MockApp.Handle | e2e/mock-api/index.ts:92-135 | the response and the store afterwards are exactly those `Serve` gives for the store before and the request |

## Left out

- String lengths count UTF-16 code units in JavaScript and code points in Python; here a string is a sequence of characters and its length is its number of elements, so the bounds are stated on that count.
- zod's own default messages are not reproduced: an issue without a custom message carries the name of its issue code (`too_small`, `too_big`, `invalid_type`, `invalid_enum_value`) instead; custom messages are exact. The error's message serialises each issue with its code, path and message only, leaving out the fields zod adds for particular codes (`minimum`, `maximum`, `type`, `inclusive`, `exact`, `expected`, `received`, `options`).
- Node's `path.join` is modelled for two segments as Node joins them: empty segments are dropped and nothing at all gives `.`, the rest are joined with one `/`, but not normalised (`..`, `.` and repeated separators are kept as given). `path.resolve` keeps an absolute path and otherwise joins it to the base with one `/`; a relative or empty base, which Node resolves against the process's working directory, is not modelled. Python's `os.path.join` for two parts is modelled exactly.
- `JSON.parse` and `json.loads` are parameters that either give a JSON value or fail; `JSON.stringify` is modelled for the values the model builds, with integers as the only numbers.
- Floating-point numbers do not occur in the model; the megabyte figure in the upload log and `Math.round` of durations are log-only.
- Logging of every kind (the loggers, `console`, `logger.exception`) is left out; where the source only logs a failure, the model records that nothing else happens.
- `Date.now()`, `new Date().toISOString()` and `performance.now()` become parameters.
- The Linear SDK's lazy relations (`issue.state`, `issue.assignee`, `issue.labels()`, `comment.user`) are already resolved in the client's answers, so `mapUser` is folded into the user field; `Promise.all` is modelled as resolving in list order.
- The MCP SDK itself (the protocol, the transport, schema conversion, the "tool not found" answer for unknown names, and its validation of the arguments against the tool's `inputSchema` before the callback runs) is left out: a call whose arguments the schema refuses gets the SDK's own error answer and runs no hook, whereas the model hands every call to the tool's handler, which answers "Validation failed: …"; `McpServerModule.McpServer.CallTool` answers nothing for an unknown name.
- `mcp-server/src/index.ts`, `mcp-server/src/transport.ts`, `mcp-server/src/config.ts` and `export-handler/src/index.ts` (environment loading, process exit, fallback writes) are not part of this model, apart from the hook list `mcp-server/src/index.ts` passes to the server.
- `export-handler/src/services/workspace-zip.ts` and `export-handler/src/services/argo-output.ts` are not part of this model; zipping and uploading are collaborators.
- TranscriptUpload.UploadAll: the pool of five worker threads is not modelled; the entries are uploaded one after another in list order, and the failure raised is the first in list order, where Python raises the first in completion order.
- The creation of the real storage client when none is given (`boto3.client`) is left out; the storage is a parameter.
- `argparse` is a parameter that gives the parsed arguments or refuses the command line; its own messages and `--help` are left out.
- The express app, `app.listen`, the port, body parsing errors and express's own 404 answers are left out; a request body is already a JSON value, and a body that is not an object has no `query`.
- MockApi.CallStore.GetCalls: returns the recorded calls as a value; the source returns the live array, so later pushes show through an earlier result, which the model does not capture.
- MockApi.IsMutationIffPattern: `\s` is JavaScript's white space set, `\b` after the keyword means the end of the text or a character outside `[A-Za-z0-9_]`, and case folding is ASCII only.
- MockApi.QueryAnswers: states the issue fixture's id only, not its identifier and title.
- A non-string truthy `query` is converted to text for the mutation test as JavaScript's `String` does for the integer, boolean, array and object values the model has.
- A thrown value that is not an `Error` carries the text `String(v)` would give; how JavaScript computes that text is not modelled.

## Findings

| source | as written | input that shows it | evidently intended | confidence | as-written member | corrected member |
|---|---|---|---|---|---|---|
| mcp-server/src/tools/git-clone.ts:46-60 | a directory inferred from the URL is passed to git without the checks a given directory must pass | `{"url": "https://example.com/--bare"}`: the URL passes its checks, the inferred directory is `--bare`, and git receives `--bare` as its last argument, where it reads as an option | the inferred directory is held to the same checks as a given one, so git never receives a directory argument starting with a dash | not executed | McpGitClone.InferredDashDirectoryReachesGit | McpGitClone.CheckedCloneArgumentsAreSafe |

`McpGitClone.DashUrlExample` exhibits the input. `McpGitClone.HandleChecked` is the corrected handler: it refuses an inferred directory that fails the directory check, with that check's message, before anything runs. The default tool list (`McpToolRegistry.DefaultTools`) registers the tool as written, as the program does, and `McpToolRegistry.RegisteredCloneTakesDashDirectory` shows the discrepancy through the server. `McpToolRegistry.CheckedTools` is the same list with the corrected tool.
