/**
 * The export configuration document and its validator: the field schema (bounds, the
 * action enumeration, the `pr` object with `base` defaulting to "main") followed by the
 * cross-field refinement, whose first rule short-circuits all later ones.
 */
module ExportSchema {
  import opened Wrappers
  import opened Json
  import opened Schema
  import opened ExportConstants
  import Text

  datatype PrConfig = PrConfig(title: string, body: string, branch: string, base: string, repo: string, repoPath: string)

  /** A parsed, validated export configuration. */
  datatype ExportConfig = ExportConfig(
    linearIssueId: Option<string>,
    summary: string,
    actions: seq<Action>,
    reportContent: Option<string>,
    pr: Option<PrConfig>)

  const DefaultBase: string := "main"

  // ---- Field schema ------------------------------------------------------------------

  function PrPath(key: string): seq<string> {
    ["pr", key]
  }

  /** The `pr` object: title 1..200, body ..10000, branch 1..100, base ..100 (default "main"), repo and repo_path 1..200. */
  function ParsePr(v: Json): Parsed<PrConfig> {
    if !v.JObj? then Aborted([TypeIssue(["pr"])])
    else
      var title := RequiredString(Get(v, "title"), PrPath("title"), Bounded(1, Some(MaxPrTitleLength)));
      var body := RequiredString(Get(v, "body"), PrPath("body"), Bounded(0, Some(MaxPrBodyLength)));
      var branch := RequiredString(Get(v, "branch"), PrPath("branch"), Bounded(1, Some(MaxPrBranchLength)));
      var base := DefaultedString(Get(v, "base"), DefaultBase, PrPath("base"), Bounded(0, Some(MaxPrBranchLength)));
      var repo := RequiredString(Get(v, "repo"), PrPath("repo"), Bounded(1, Some(MaxPrRepoLength)));
      var repoPath := RequiredString(Get(v, "repo_path"), PrPath("repo_path"), Bounded(1, Some(MaxPrRepoPathLength)));
      var issues := title.issues + body.issues + branch.issues + base.issues + repo.issues + repoPath.issues;
      if title.Parsed? && body.Parsed? && branch.Parsed? && base.Parsed? && repo.Parsed? && repoPath.Parsed? then
        Parsed(PrConfig(title.value, body.value, branch.value, base.value, repo.value, repoPath.value), issues)
      else
        Aborted(issues)
  }

  function ParseOptionalPr(v: Option<Json>): Parsed<Option<PrConfig>> {
    match v
    case None => Parsed(None, [])
    case Some(p) =>
      match ParsePr(p)
      case Parsed(c, issues) => Parsed(Some(c), issues)
      case Aborted(issues) => Aborted(issues)
  }

  /** An array element that is one of the five action tokens. */
  predicate IsActionToken(j: Json) {
    j.JStr? && ParseAction(j.s).Some?
  }

  function ElementIssue(j: Json, i: nat): Issue {
    if j.JStr? then Issue(InvalidEnumValue, ElementPath(["actions"], i), DefaultMessage(InvalidEnumValue))
    else TypeIssue(ElementPath(["actions"], i))
  }

  /** The issues of the elements `items[start..]` that are not action tokens, in index order. */
  function ElementIssues(items: seq<Json>, start: nat): (r: seq<Issue>)
    ensures r == [] <==> forall k :: start <= k < |items| ==> IsActionToken(items[k])
    decreases |items| - start
  {
    if start >= |items| then []
    else (if IsActionToken(items[start]) then [] else [ElementIssue(items[start], start)]) + ElementIssues(items, start + 1)
  }

  /** `z.array(z.enum(EXPORT_ACTIONS)).min(1)`: the length check comes first, then each element. */
  function ParseActionList(v: Option<Json>): (r: Parsed<seq<Action>>)
    ensures r.Parsed? <==> v.Some? && v.value.JArr? && forall k :: 0 <= k < |v.value.items| ==> IsActionToken(v.value.items[k])
    ensures r.Parsed? ==> |r.value| == |v.value.items|
                          && (forall k :: 0 <= k < |r.value| ==> v.value.items[k] == JStr(Token(r.value[k])))
                          && (r.issues == [] <==> |r.value| >= 1)
  {
    match v
    case Some(JArr(items)) =>
      var sizeIssues := if |items| < 1 then [Issue(TooSmall(1), ["actions"], DefaultMessage(TooSmall(1)))] else [];
      var elementIssues := ElementIssues(items, 0);
      if elementIssues == [] then
        Parsed(seq(|items|, k requires 0 <= k < |items| => ParseAction(items[k].s).value), sizeIssues)
      else
        Aborted(sizeIssues + elementIssues)
    case _ => Aborted([TypeIssue(["actions"])])
  }

  /**
   * The object schema without its refinement: the parsed configuration with the bound issues
   * met on the way, or an abort.
   */
  function ParseFields(j: Json): Parsed<ExportConfig> {
    if !j.JObj? then Aborted([TypeIssue([])])
    else
      var id := OptionalString(Get(j, "linear_issue_id"), ["linear_issue_id"], Bounded(1, None));
      var summary := RequiredString(Get(j, "summary"), ["summary"], Bounded(1, Some(MaxSummaryLength)));
      var actions := ParseActionList(Get(j, "actions"));
      var report := OptionalString(Get(j, "report_content"), ["report_content"], Bounded(0, Some(MaxReportContentLength)));
      var pr := ParseOptionalPr(Get(j, "pr"));
      var issues := id.issues + summary.issues + actions.issues + report.issues + pr.issues;
      if id.Parsed? && summary.Parsed? && actions.Parsed? && report.Parsed? && pr.Parsed? then
        Parsed(ExportConfig(id.value, summary.value, actions.value, report.value, pr.value), issues)
      else
        Aborted(issues)
  }

  // ---- Cross-field refinement -------------------------------------------------------

  /** Some exclusive action sits in a list of more than one action. */
  predicate ExclusiveConflict(actions: seq<Action>) {
    |actions| > 1 && exists i :: 0 <= i < |actions| && IsExclusive(actions[i])
  }

  /** The index of the first exclusive action of the list. */
  function FirstExclusive(actions: seq<Action>): (k: nat)
    requires exists i :: 0 <= i < |actions| && IsExclusive(actions[i])
    ensures k < |actions| && IsExclusive(actions[k])
    ensures forall i :: 0 <= i < k ==> !IsExclusive(actions[i])
  {
    if IsExclusive(actions[0]) then 0
    else
      var i :| 0 <= i < |actions| && IsExclusive(actions[i]);
      assert IsExclusive(actions[1..][i - 1]);
      1 + FirstExclusive(actions[1..])
  }

  function ExclusiveIssue(a: Action): Issue {
    CustomIssue(["actions"], "Action " + Text.Quote(Token(a)) + " must be the only action when present")
  }

  /** `new Set(actions).size !== actions.length`. */
  predicate SetSizeDiffers(actions: seq<Action>) {
    |set a | a in actions| != |actions|
  }

  function DuplicateIssues(actions: seq<Action>): seq<Issue> {
    if SetSizeDiffers(actions) then [CustomIssue(["actions"], "Duplicate actions are not allowed")] else []
  }

  /** The actions of the list that need a Linear issue, in list order. */
  function IssueRequiring(actions: seq<Action>): (r: seq<Action>)
    ensures forall a :: a in r <==> a in actions && RequiresIssue(a)
    ensures |r| <= |actions|
  {
    if actions == [] then []
    else (if RequiresIssue(actions[0]) then [actions[0]] else []) + IssueRequiring(actions[1..])
  }

  function QuotedTokens(actions: seq<Action>): seq<string> {
    seq(|actions|, i requires 0 <= i < |actions| => Text.Quote(Token(actions[i])))
  }

  /** A present, non-empty string (JavaScript truthiness of an optional string). */
  predicate Truthy(v: Option<string>) {
    v.Some? && v.value != ""
  }

  function IssueIdIssues(c: ExportConfig): seq<Issue> {
    if IssueRequiring(c.actions) != [] && !Truthy(c.linearIssueId) then
      [CustomIssue(["linear_issue_id"],
         "linear_issue_id is required when actions include " + Text.Join(QuotedTokens(IssueRequiring(c.actions)), ", "))]
    else []
  }

  function ReportContentIssues(c: ExportConfig): seq<Issue> {
    if Report in c.actions && !Truthy(c.reportContent) then
      [CustomIssue(["report_content"], "report_content is required when actions include 'report'")]
    else []
  }

  function PrIssues(c: ExportConfig): seq<Issue> {
    if CreatePr in c.actions && c.pr.None? then
      [CustomIssue(["pr"], "pr config is required when actions include 'create_pr'")]
    else []
  }

  /**
   * The refinement's issues: one issue naming the first exclusive action when it is not
   * alone, and nothing else; otherwise the duplicate, issue-id, report-content and pr rules
   * in that order.
   */
  function RefineIssues(c: ExportConfig): seq<Issue> {
    if ExclusiveConflict(c.actions) then [ExclusiveIssue(c.actions[FirstExclusive(c.actions)])]
    else DuplicateIssues(c.actions) + IssueIdIssues(c) + ReportContentIssues(c) + PrIssues(c)
  }

  /** The refinement as the program runs it: a scan with early return, then the remaining rules. */
  method SuperRefine(c: ExportConfig) returns (issues: seq<Issue>)
    ensures issues == RefineIssues(c)
  {
    issues := [];
    var i := 0;
    while i < |c.actions|
      invariant 0 <= i <= |c.actions|
      invariant issues == []
      invariant forall k :: 0 <= k < i ==> !(IsExclusive(c.actions[k]) && |c.actions| > 1)
    {
      var action := c.actions[i];
      if IsExclusive(action) && |c.actions| > 1 {
        issues := issues + [ExclusiveIssue(action)];
        assert ExclusiveConflict(c.actions);
        var k := FirstExclusive(c.actions);
        assert !(k < i) && !(i < k);
        return;
      }
      i := i + 1;
    }
    assert !ExclusiveConflict(c.actions);
    if SetSizeDiffers(c.actions) {
      issues := issues + [CustomIssue(["actions"], "Duplicate actions are not allowed")];
    }
    assert issues == DuplicateIssues(c.actions);
    issues := issues + IssueIdIssues(c);
    if Report in c.actions && !Truthy(c.reportContent) {
      issues := issues + [CustomIssue(["report_content"], "report_content is required when actions include 'report'")];
    }
    assert issues == DuplicateIssues(c.actions) + IssueIdIssues(c) + ReportContentIssues(c);
    if CreatePr in c.actions && c.pr.None? {
      issues := issues + [CustomIssue(["pr"], "pr config is required when actions include 'create_pr'")];
    }
  }

  /** `ExportConfigSchema.safeParse(j)`: the configuration, or every issue found. */
  function Validate(j: Json): Result<ExportConfig, seq<Issue>> {
    match ParseFields(j)
    case Aborted(issues) => Err(issues)
    case Parsed(c, issues) =>
      var all := issues + RefineIssues(c);
      if all == [] then Ok(c) else Err(all)
  }
}
