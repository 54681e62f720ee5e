/**
 * The MCP server's copy of the export vocabulary: the same action tokens, classifications
 * and limits as the export handler's, the field shape of the `pr` object, the table of
 * conditionally required fields, and the action catalogue shown to the agent.
 */
module McpExportConstants {
  import opened Wrappers
  import opened Json
  import EC = ExportConstants
  import opened ExportSchema
  import Schema

  const ExportActionTypes: seq<string> := ["none", "upload_workspace", "report", "create_pr", "continue"]
  const ExportConfigFilename: string := "export_config.json"
  const ExclusiveActions: set<string> := {"none", "continue"}
  const ActionsRequiringIssue: set<string> := {"upload_workspace", "report"}

  const MaxPrTitleLength: nat := 200
  const MaxPrBodyLength: nat := 10000
  const MaxPrBranchLength: nat := 100
  const MaxPrRepoLength: nat := 200
  const MaxPrRepoPathLength: nat := 200
  const MaxSummaryLength: nat := 10000
  const MaxReportContentLength: nat := 50000

  /** The two copies of the vocabulary are in sync: tokens, file name, both classifications and every limit. */
  lemma InSyncWithExportHandler()
    ensures ExportActionTypes == EC.ExportActionTokens()
    ensures ExportConfigFilename == EC.ExportConfigFilename
    ensures forall a: EC.Action :: EC.IsExclusive(a) <==> EC.Token(a) in ExclusiveActions
    ensures forall a: EC.Action :: EC.RequiresIssue(a) <==> EC.Token(a) in ActionsRequiringIssue
    ensures MaxPrTitleLength == EC.MaxPrTitleLength && MaxPrBodyLength == EC.MaxPrBodyLength
    ensures MaxPrBranchLength == EC.MaxPrBranchLength && MaxPrRepoLength == EC.MaxPrRepoLength
    ensures MaxPrRepoPathLength == EC.MaxPrRepoPathLength && MaxSummaryLength == EC.MaxSummaryLength
    ensures MaxReportContentLength == EC.MaxReportContentLength
  {
    EC.ExportActionsEnumerateAll();
  }

  /** A key of an object schema's shape, and whether its schema is optional. */
  datatype ShapeKey = ShapeKey(key: string, optional: bool)

  /** The keys of `PrConfigSchema`, in declaration order; only `base` is optional. */
  const PrShape: seq<ShapeKey> := [
    ShapeKey("title", false), ShapeKey("body", false), ShapeKey("branch", false),
    ShapeKey("base", true), ShapeKey("repo", false), ShapeKey("repo_path", false)]

  /** `requiredKeysOf`: the keys whose schema is not optional, in shape order. */
  function RequiredKeysOf(shape: seq<ShapeKey>): (r: seq<string>)
  {
    if shape == [] then []
    else (if shape[0].optional then [] else [shape[0].key]) + RequiredKeysOf(shape[1..])
  }

  /** A key is listed exactly when the shape declares it with a schema that is not optional. */
  lemma {:induction false} RequiredKeysOfMembers(shape: seq<ShapeKey>, k: string)
    ensures k in RequiredKeysOf(shape) <==> ShapeKey(k, false) in shape
  {
    if shape != [] {
      RequiredKeysOfMembers(shape[1..], k);
      assert shape == [shape[0]] + shape[1..];
    }
  }

  /** The required keys of the `pr` object are every key but `base`. */
  lemma {:induction false} PrRequiredKeys()
    ensures RequiredKeysOf(PrShape) == ["title", "body", "branch", "repo", "repo_path"]
  {
    var s := PrShape;
    assert s[5..][1..] == [];
    assert RequiredKeysOf(s[5..]) == ["repo_path"];
    assert s[4..][1..] == s[5..];
    assert RequiredKeysOf(s[4..]) == ["repo", "repo_path"];
    assert s[3..][1..] == s[4..];
    assert RequiredKeysOf(s[3..]) == ["repo", "repo_path"];
    assert s[2..][1..] == s[3..];
    assert RequiredKeysOf(s[2..]) == ["branch", "repo", "repo_path"];
    assert s[1..][1..] == s[2..];
    assert RequiredKeysOf(s[1..]) == ["body", "branch", "repo", "repo_path"];
  }

  /** A `pr` object that lacks a required key is refused by the `pr` schema; lacking only `base` is not. */
  lemma RequiredKeysAreRequired(p: Json, k: string)
    requires p.JObj? && k in RequiredKeysOf(PrShape) && Get(p, k).None?
    ensures ParsePr(p).Aborted?
  {
    PrRequiredKeys();
  }

  /** An entry of `ACTION_REQUIREMENTS`: the action and the top-level field it makes required. */
  datatype Requirement = Requirement(action: EC.Action, field: string)

  function PrefixAll(prefix: string, keys: seq<string>): (r: seq<string>)
    ensures |r| == |keys| && forall i :: 0 <= i < |keys| ==> r[i] == prefix + keys[i]
  {
    seq(|keys|, i requires 0 <= i < |keys| => prefix + keys[i])
  }

  /** `ACTION_REQUIREMENTS`, in its declaration order: `report` needs `report_content`, `create_pr` needs `pr`. */
  function ActionRequirements(): seq<Requirement> {
    [Requirement(EC.Report, "report_content"), Requirement(EC.CreatePr, "pr")]
  }

  /** The `required_fields` of an entry: the field itself, or, for `pr`, the paths of its required keys. */
  function RequiredFields(r: Requirement): seq<string> {
    if r.field == "pr" then PrefixAll("pr.", RequiredKeysOf(PrShape)) else [r.field]
  }

  /** An entry of `EXPORT_ACTIONS`. */
  datatype ActionInfo = ActionInfo(action: EC.Action, description: string, requiredFields: seq<string>)

  /** The fields an action needs, from the requirement table; none for an action without an entry. */
  function RequiredFieldsOf(a: EC.Action, reqs: seq<Requirement>): (r: seq<string>)
    ensures (forall i :: 0 <= i < |reqs| ==> reqs[i].action != a) ==> r == []
  {
    if reqs == [] then []
    else if reqs[0].action == a then RequiredFields(reqs[0])
    else RequiredFieldsOf(a, reqs[1..])
  }

  function Description(a: EC.Action): string {
    match a
    case NoOp => "추가 작업 없음. 작업 요약 코멘트만 Linear 이슈에 추가됩니다."
    case UploadWorkspace => "workspace 전체를 압축하여 Linear 이슈에 첨부합니다. 코드, 데이터, 결과물 등을 공유할 때 사용합니다."
    case Report => "분석 리포트를 Linear 이슈 코멘트로 추가합니다. 마크다운 형식의 상세 분석 결과를 공유할 때 사용합니다."
    case CreatePr => "GitHub Pull Request를 생성합니다. 코드 변경 사항을 리뷰 및 머지하기 위해 사용합니다."
    case Continue => "현재 사이클을 종료하고 다음 사이클에서 에이전트 루프를 계속 진행합니다. 작업이 아직 완료되지 않았을 때 사용합니다."
  }

  /** `EXPORT_ACTIONS`: one entry per action in declaration order, its required fields taken from the table. */
  function ExportActions(): (r: seq<ActionInfo>)
    ensures |r| == |EC.ExportActions|
    ensures forall i :: 0 <= i < |r| ==> r[i].action == EC.ExportActions[i]
  {
    seq(|EC.ExportActions|, i requires 0 <= i < |EC.ExportActions| =>
      ActionInfo(EC.ExportActions[i], Description(EC.ExportActions[i]), RequiredFieldsOf(EC.ExportActions[i], ActionRequirements())))
  }

  /**
   * The catalogue lists every action once, in token order; `report` requires `report_content`
   * and `none`, `upload_workspace` and `continue` require nothing.
   */
  lemma CatalogueFields()
    ensures forall i :: 0 <= i < |ExportActions()| ==> EC.Token(ExportActions()[i].action) == ExportActionTypes[i]
    ensures ExportActions()[2].requiredFields == ["report_content"]
    ensures forall i :: i in {0, 1, 4} ==> ExportActions()[i].requiredFields == []
  {
    EC.ExportActionsEnumerateAll();
  }

  /** `create_pr` requires the paths of the five required `pr` keys, `base` excluded. */
  lemma CreatePrRequiredFields()
    ensures ExportActions()[3].requiredFields == ["pr.title", "pr.body", "pr.branch", "pr.repo", "pr.repo_path"]
  {
    PrRequiredKeys();
    var fields := PrefixAll("pr.", RequiredKeysOf(PrShape));
    assert fields[0] == "pr.title" && fields[1] == "pr.body" && fields[2] == "pr.branch";
    assert fields[3] == "pr.repo" && fields[4] == "pr.repo_path";
    assert RequiredFieldsOf(EC.CreatePr, ActionRequirements()) == fields;
  }

  /** The catalogue's entry for `ExportActions` as JSON: type, description, required fields. */
  function ActionInfoToJson(info: ActionInfo): Json {
    JObj([("type", JStr(EC.Token(info.action))), ("description", JStr(info.description)),
          ("required_fields", StrArr(info.requiredFields))])
  }

  function CatalogueJson(): (r: Json)
    ensures r.JArr? && |r.items| == |ExportActions()|
  {
    JArr(seq(|ExportActions()|, i requires 0 <= i < |ExportActions()| => ActionInfoToJson(ExportActions()[i])))
  }
}
