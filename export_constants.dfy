/** The export action vocabulary, its two classifications, file names and field limits. */
module ExportConstants {
  import opened Wrappers
  import Text

  /** The five export actions, one constructor per token. */
  datatype Action = NoOp | UploadWorkspace | Report | CreatePr | Continue

  /** The wire token of an action. */
  function Token(a: Action): string {
    match a
    case NoOp => "none"
    case UploadWorkspace => "upload_workspace"
    case Report => "report"
    case CreatePr => "create_pr"
    case Continue => "continue"
  }

  /** `EXPORT_ACTIONS`: every action, in declaration order. */
  const ExportActions: seq<Action> := [NoOp, UploadWorkspace, Report, CreatePr, Continue]

  /** The tokens of `ExportActions`, in the same order. */
  function ExportActionTokens(): seq<string> {
    seq(|ExportActions|, i requires 0 <= i < |ExportActions| => Token(ExportActions[i]))
  }

  /** Membership test of the action enumeration: the action whose token is `s`, if any. */
  function ParseAction(s: string): (r: Option<Action>)
    ensures r.Some? ==> Token(r.value) == s
  {
    if s == "none" then Some(NoOp)
    else if s == "upload_workspace" then Some(UploadWorkspace)
    else if s == "report" then Some(Report)
    else if s == "create_pr" then Some(CreatePr)
    else if s == "continue" then Some(Continue)
    else None
  }

  /** `EXCLUSIVE_ACTIONS`: actions that must be the only element of the list when present. */
  predicate IsExclusive(a: Action) {
    a in {NoOp, Continue}
  }

  /** `ACTIONS_REQUIRING_ISSUE`: actions that need a Linear issue id. */
  predicate RequiresIssue(a: Action) {
    a in {UploadWorkspace, Report}
  }

  const DefaultWorkDir: string := "/work"
  const DefaultTmpDir: string := "/tmp"

  const ExportConfigFilename: string := "export_config.json"
  const ActionResultsFilename: string := "action_results.json"
  const WorkspaceZipFilename: string := "workspace.zip"

  /** Patterns excluded from the workspace archive. */
  const ZipExcludePatterns: seq<string> := [".git/*", "node_modules/*", ExportConfigFilename]

  const MaxPrTitleLength: nat := 200
  const MaxPrBodyLength: nat := 10000
  const MaxPrBranchLength: nat := 100
  const MaxPrRepoLength: nat := 200
  const MaxPrRepoPathLength: nat := 200
  const MaxSummaryLength: nat := 10000
  const MaxReportContentLength: nat := 50000

  /** Every action appears in `ExportActions` exactly once, and their tokens are pairwise distinct. */
  lemma ExportActionsEnumerateAll()
    ensures |ExportActions| == 5
    ensures forall a: Action :: a in ExportActions
    ensures forall i, j :: 0 <= i < j < |ExportActions| ==> Token(ExportActions[i]) != Token(ExportActions[j])
    ensures ExportActionTokens() == ["none", "upload_workspace", "report", "create_pr", "continue"]
  {
    forall a: Action ensures a in ExportActions {
      match a
      case NoOp => assert ExportActions[0] == a;
      case UploadWorkspace => assert ExportActions[1] == a;
      case Report => assert ExportActions[2] == a;
      case CreatePr => assert ExportActions[3] == a;
      case Continue => assert ExportActions[4] == a;
    }
  }

  /** Parsing a token is the exact inverse of `Token`: it accepts precisely the five tokens. */
  lemma ParseActionRoundTrip(a: Action, s: string)
    ensures ParseAction(Token(a)) == Some(a)
    ensures ParseAction(s).Some? <==> s in ExportActionTokens()
  {
    ExportActionsEnumerateAll();
  }

  /** The two classifications are exactly {none, continue} and {upload_workspace, report}, and disjoint. */
  lemma ClassificationsDisjoint(a: Action)
    ensures IsExclusive(a) <==> Token(a) in {"none", "continue"}
    ensures RequiresIssue(a) <==> Token(a) in {"upload_workspace", "report"}
    ensures !(IsExclusive(a) && RequiresIssue(a))
  {
  }

  /** The archive never contains version-control data, dependencies or the export configuration itself. */
  lemma ZipExcludesConfig()
    ensures ".git/*" in ZipExcludePatterns && "node_modules/*" in ZipExcludePatterns
    ensures ExportConfigFilename in ZipExcludePatterns
  {
  }
}
