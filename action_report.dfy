/** The `report` action: post the analysis report as a comment on the Linear issue. */
module ReportAction {
  import opened Wrappers
  import opened Errors
  import opened Collaborators
  import opened ExportSchema
  import opened ActionTypes
  import opened LinearComment
  import Templates

  const MissingIssue: string := "report action requires a valid Linear issue (linear_issue_id must be set)"
  const MissingContent: string := "report_content is required for action 'report'"

  /** `reportHandler.validate`: the issue id is checked first, then the report content. */
  function Validate(ctx: ActionContext): (r: Option<Thrown>)
    ensures r.None? <==> HasValidIssue(ctx.issueId) && Truthy(ctx.config.reportContent)
    ensures !HasValidIssue(ctx.issueId) ==> r == Some(Fail(MissingIssue))
    ensures HasValidIssue(ctx.issueId) && !Truthy(ctx.config.reportContent) ==> r == Some(Fail(MissingContent))
  {
    if !HasValidIssue(ctx.issueId) then Some(Fail(MissingIssue))
    else if !Truthy(ctx.config.reportContent) then Some(Fail(MissingContent))
    else None
  }

  /** `reportHandler.execute`, run only after `Validate` accepted the context. */
  function Execute(env: Env, ctx: ActionContext): (r: Run<ActionResult>)
    requires Validate(ctx).None?
    ensures r.calls == [CreateComment(ctx.issueId.value, Templates.ReportComment(ctx.config.reportContent.value))]
    ensures r.outcome.Returned? <==>
              env.createComment(ctx.issueId.value, Templates.ReportComment(ctx.config.reportContent.value)) == Returned(true)
    ensures forall i :: 0 <= i < |r.calls| ==> IsServiceCall(r.calls[i])
    ensures var post := PostLinearComment(env, ctx.issueId.value,
                                          Templates.ReportComment(ctx.config.reportContent.value), ReportContext);
            && (post.outcome.Returned? ==> r.outcome == Returned(map[]))
            && (post.outcome.Threw? ==> r.outcome == Threw(post.outcome.error))
  {
    var post := PostLinearComment(env, ctx.issueId.value, Templates.ReportComment(ctx.config.reportContent.value), ReportContext);
    match post.outcome
    case Returned(_) => Run(Returned(map[]), post.calls)
    case Threw(e) => Run(Threw(e), post.calls)
  }

  /**
   * The sentinel `"none"` is refused even though the configuration validator accepts it as an
   * issue id; an empty report is refused once the issue is valid.
   */
  lemma SentinelIssueRefused(ctx: ActionContext)
    requires ctx.issueId == Some("none")
    ensures Validate(ctx) == Some(Fail(MissingIssue))
  {
  }
}
