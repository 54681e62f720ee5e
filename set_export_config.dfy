/**
 * The `set_export_config` tool: it validates the agent's export configuration with the same
 * field schema as the export handler and a table-driven copy of its cross-field refinement,
 * then saves the parsed configuration, pretty-printed, as `export_config.json` in the work
 * directory for the export handler to pick up.
 */
module McpSetExportConfig {
  import opened Wrappers
  import opened Json
  import opened Errors
  import opened Schema
  import Text
  import opened ExportConstants
  import opened ExportSchema
  import opened ExportSchemaProperties
  import MC = McpExportConstants
  import opened McpTypes
  import opened ToolUtils

  /** `!data[field]` on the parsed configuration, whose JSON form is `ToJson(c)`. */
  predicate FieldMissing(c: ExportConfig, field: string) {
    !JsTruthyOpt(Get(ToJson(c), field))
  }

  function RequirementIssue(r: MC.Requirement): Issue {
    CustomIssue([r.field], r.field + " is required when actions include " + Text.Quote(Token(r.action)))
  }

  /** The issues of the conditional-requirement rules, one per table entry whose action is listed and whose field is missing. */
  function RequirementIssues(c: ExportConfig, reqs: seq<MC.Requirement>): (r: seq<Issue>)
    ensures |r| <= |reqs|
  {
    if reqs == [] then []
    else
      var last := reqs[|reqs| - 1];
      RequirementIssues(c, reqs[..|reqs| - 1])
      + (if last.action in c.actions && FieldMissing(c, last.field) then [RequirementIssue(last)] else [])
  }

  /** The refinement of this copy: the exclusivity rule short-circuits; then duplicates, the issue id, and the table. */
  function RefineIssues(c: ExportConfig): seq<Issue> {
    if ExclusiveConflict(c.actions) then [ExclusiveIssue(c.actions[FirstExclusive(c.actions)])]
    else DuplicateIssues(c.actions) + IssueIdIssues(c) + RequirementIssues(c, MC.ActionRequirements())
  }

  /** The exclusivity scan: the first exclusive action, when the list has more than one action. */
  method ScanExclusive(actions: seq<Action>) returns (found: Option<Action>)
    ensures found.Some? <==> ExclusiveConflict(actions)
    ensures found.Some? ==> found.value == actions[FirstExclusive(actions)]
  {
    var i := 0;
    while i < |actions|
      invariant 0 <= i <= |actions|
      invariant forall k :: 0 <= k < i ==> !(IsExclusive(actions[k]) && |actions| > 1)
    {
      if IsExclusive(actions[i]) && |actions| > 1 {
        assert ExclusiveConflict(actions);
        var k := FirstExclusive(actions);
        assert !(k < i) && !(i < k);
        return Some(actions[i]);
      }
      i := i + 1;
    }
    return None;
  }

  /** The loop over the requirement table. */
  method CheckRequirements(c: ExportConfig, reqs: seq<MC.Requirement>) returns (issues: seq<Issue>)
    ensures issues == RequirementIssues(c, reqs)
  {
    issues := [];
    var j := 0;
    while j < |reqs|
      invariant 0 <= j <= |reqs|
      invariant issues == RequirementIssues(c, reqs[..j])
    {
      var req := reqs[j];
      assert reqs[..j + 1][..j] == reqs[..j];
      if req.action in c.actions && FieldMissing(c, req.field) {
        issues := issues + [RequirementIssue(req)];
      }
      j := j + 1;
    }
    assert reqs[..j] == reqs;
  }

  /** The refinement as the tool runs it: the scan with early return, two rules, then the table. */
  method SuperRefine(c: ExportConfig) returns (issues: seq<Issue>)
    ensures issues == RefineIssues(c)
  {
    var conflict := ScanExclusive(c.actions);
    if conflict.Some? {
      return [ExclusiveIssue(conflict.value)];
    }
    issues := [];
    if SetSizeDiffers(c.actions) {
      issues := issues + [CustomIssue(["actions"], "Duplicate actions are not allowed")];
    }
    issues := issues + IssueIdIssues(c);
    var rest := CheckRequirements(c, MC.ActionRequirements());
    issues := issues + rest;
  }

  /** `SetExportConfigInputSchema.parse`: the field schema, then this copy's refinement. */
  function Validate(j: Json): Result<ExportConfig, seq<Issue>> {
    match ParseFields(j)
    case Aborted(issues) => Err(issues)
    case Parsed(c, issues) =>
      var all := issues + RefineIssues(c);
      if all == [] then Ok(c) else Err(all)
  }

  const PrMessage: string := "pr is required when actions include 'create_pr'"

  lemma ReportFieldMissing(c: ExportConfig)
    ensures FieldMissing(c, "report_content") <==> !ExportSchema.Truthy(c.reportContent)
  {
    ToJsonReportContent(c);
  }

  lemma PrFieldMissing(c: ExportConfig)
    ensures FieldMissing(c, "pr") <==> c.pr.None?
  {
    ToJsonPr(c);
  }

  lemma ReportRequirementMessage()
    ensures RequirementIssue(MC.ActionRequirements()[0])
         == CustomIssue(["report_content"], "report_content is required when actions include 'report'")
  {
    assert "report_content" + " is required when actions include " + "'report'"
        == "report_content is required when actions include 'report'";
  }

  lemma PrRequirementMessage()
    ensures RequirementIssue(MC.ActionRequirements()[1]) == CustomIssue(["pr"], PrMessage)
  {
    assert "pr" + " is required when actions include " == "pr is required when actions include ";
    assert "pr is required when actions include " + "'create_pr'" == PrMessage;
  }

  /** The table's rules are the export handler's report-content rule and its pr rule, the latter with its own wording. */
  lemma RequirementsUnfold(c: ExportConfig)
    ensures RequirementIssues(c, MC.ActionRequirements())
         == ReportContentIssues(c) + (if CreatePr in c.actions && c.pr.None? then [CustomIssue(["pr"], PrMessage)] else [])
  {
    var reqs := MC.ActionRequirements();
    assert reqs[..1] == [reqs[0]];
    assert reqs[..1][..0] == [];
    assert reqs[..2] == reqs;
    ReportFieldMissing(c);
    PrFieldMissing(c);
    ReportRequirementMessage();
    PrRequirementMessage();
  }

  /**
   * The two copies of the refinement report the same issues in the same order; they differ only
   * in the wording of the issue on `pr`.
   */
  lemma CopiesAgree(c: ExportConfig)
    ensures |RefineIssues(c)| == |ExportSchema.RefineIssues(c)|
    ensures forall k :: 0 <= k < |RefineIssues(c)| ==>
              && RefineIssues(c)[k].path == ExportSchema.RefineIssues(c)[k].path
              && (RefineIssues(c)[k].path != ["pr"] ==> RefineIssues(c)[k] == ExportSchema.RefineIssues(c)[k])
  {
    if !ExclusiveConflict(c.actions) {
      RequirementsUnfold(c);
    }
  }

  /** The tool accepts exactly the configurations the export handler accepts, with the same parsed value. */
  lemma ValidateAgrees(j: Json)
    ensures Validate(j).Ok? <==> ExportSchema.Validate(j).Ok?
    ensures Validate(j).Ok? ==> Validate(j).value == ExportSchema.Validate(j).value
  {
    if ParseFields(j).Parsed? {
      CopiesAgree(ParseFields(j).value);
    }
  }

  const ToolName: string := "set_export_config"
  const ToolDescription: string :=
    "작업 완료 후 export 설정을 저장합니다. 이 설정에 따라 Linear 이슈에 코멘트가 추가되고, 선택한 action이 수행됩니다. 반드시 작업 완료 시점에 호출하세요."

  function SavedMessage(actions: seq<Action>): string {
    "Export config saved. Actions [" + Text.Join(Tokens(actions), ", ") + "] will be executed after the cycle completes."
  }

  function SavedBody(actions: seq<Action>, path: string): Json {
    JObj([("success", JBool(true)), ("message", JStr(SavedMessage(actions))), ("config_path", JStr(path))])
  }

  function ConfigPath(ctx: Context): string {
    InWorkDir(ctx, MC.ExportConfigFilename)
  }

  /** The handler: write the parsed configuration, indented by two, then report where it went. */
  function Handle(c: ExportConfig, ctx: Context): (r: McpRun<Response>)
    ensures r.calls == [WriteFile(ConfigPath(ctx), Stringify(ToJson(c), 2))]
    ensures r.outcome.Returned? <==> ctx.writeFile(ConfigPath(ctx), Stringify(ToJson(c), 2)).Returned?
    ensures r.outcome.Threw? ==> r.outcome.error == ctx.writeFile(ConfigPath(ctx), Stringify(ToJson(c), 2)).error
    ensures r.outcome.Returned? ==> r.outcome.value == McpSuccess(SavedBody(c.actions, ConfigPath(ctx)), None)
  {
    var path := ConfigPath(ctx);
    var data := Stringify(ToJson(c), 2);
    match ctx.writeFile(path, data)
    case Threw(e) => McpRun(Threw(e), [WriteFile(path, data)])
    case Returned(_) => McpRun(Returned(McpSuccess(SavedBody(c.actions, path), None)), [WriteFile(path, data)])
  }

  function SetExportConfigTool(): (t: Tool)
    ensures t.name == "set_export_config"
  {
    DefineTool(ToolName, ToolDescription, Validate, Handle)
  }

  /**
   * The tool writes the file only for a configuration the export handler accepts, and what it
   * writes is that configuration's document, which the export handler validates back to the
   * same configuration.
   */
  lemma SavedConfigRoundTrips(args: Json, ctx: Context)
    ensures var s := SetExportConfigTool().handler(args, ctx);
            && (s.calls != [] <==> ExportSchema.Validate(args).Ok?)
            && (s.calls != [] ==>
                  var c := ExportSchema.Validate(args).value;
                  && s.calls == [WriteFile(ConfigPath(ctx), Stringify(ToJson(c), 2))]
                  && ExportSchema.Validate(ToJson(c)) == Ok(c))
  {
    ValidateAgrees(args);
    if ExportSchema.Validate(args).Ok? {
      RevalidationIsIdentity(args, ExportSchema.Validate(args).value);
    }
  }

  /** A refused configuration is answered with an error envelope and nothing is written. */
  lemma RefusedConfigNotWritten(args: Json, ctx: Context)
    requires ExportSchema.Validate(args).Err?
    ensures var s := SetExportConfigTool().handler(args, ctx);
            s.calls == [] && s.response.isError == Some(true)
  {
    ValidateAgrees(args);
  }
}
