/** The markdown bodies of the comments the export handler posts on a Linear issue. */
module Templates {
  import Text

  const SummaryHeader: string := "## Agent 작업 요약\n\n"
  const ReportHeader: string := "## 분석 리포트\n\n"
  const WorkspaceUploadHeader: string := "## Workspace 압축 파일\n\n작업 workspace 전체가 첨부되었습니다.\n\n"
  const PrCreatedHeader: string := "## GitHub Pull Request 생성됨\n\n"

  function SummaryComment(summary: string): (r: string)
    ensures Text.StartsWith(r, SummaryHeader) && r[|SummaryHeader|..] == summary
  {
    SummaryHeader + summary
  }

  function ReportComment(reportContent: string): (r: string)
    ensures Text.StartsWith(r, ReportHeader) && r[|ReportHeader|..] == reportContent
  {
    ReportHeader + reportContent
  }

  /** The upload comment: a fixed header, then a markdown link whose text is the file name. */
  function WorkspaceUploadComment(filename: string, assetUrl: string): (r: string)
    ensures Text.StartsWith(r, WorkspaceUploadHeader)
    ensures r[|WorkspaceUploadHeader|..] == "[" + filename + "](" + assetUrl + ")"
    ensures Text.EndsWith(r, assetUrl + ")")
  {
    WorkspaceUploadHeader + "[" + filename + "](" + assetUrl + ")"
  }

  /** The PR comment: a fixed header, the title in bold, a blank line, then the PR address. */
  function PrCreatedComment(title: string, prUrl: string): (r: string)
    ensures Text.StartsWith(r, PrCreatedHeader)
    ensures r[|PrCreatedHeader|..] == "**" + title + "**\n\n" + prUrl
    ensures Text.EndsWith(r, prUrl)
  {
    PrCreatedHeader + "**" + title + "**\n\n" + prUrl
  }

  /** Each single-input template determines its input: different inputs give different comments. */
  lemma SingleInputTemplatesInjective(a: string, b: string)
    ensures SummaryComment(a) == SummaryComment(b) ==> a == b
    ensures ReportComment(a) == ReportComment(b) ==> a == b
  {
  }

  /** The summary and report comments can never be confused: their headers differ. */
  lemma SummaryAndReportDistinct(a: string, b: string)
    ensures SummaryComment(a) != ReportComment(b)
  {
    assert SummaryComment(a)[3] != ReportComment(b)[3];
  }

  /** For a given title, the PR comment determines the PR address. */
  lemma PrCreatedCommentDeterminesUrl(title: string, u1: string, u2: string)
    ensures PrCreatedComment(title, u1) == PrCreatedComment(title, u2) ==> u1 == u2
  {
    if PrCreatedComment(title, u1) == PrCreatedComment(title, u2) {
      var n := |PrCreatedHeader + "**" + title + "**\n\n"|;
      assert PrCreatedComment(title, u1)[n..] == u1;
    }
  }
}
