/** Posting a comment on a Linear issue, with the failure message naming the call site. */
module LinearComment {
  import opened Wrappers
  import opened Errors
  import opened Collaborators

  /** The call site a comment comes from; it appears in the failure message. */
  datatype CommentContext = SummaryContext | ReportContext | UploadContext | PrLinkContext

  function ContextName(c: CommentContext): string {
    match c
    case SummaryContext => "summary"
    case ReportContext => "report"
    case UploadContext => "upload"
    case PrLinkContext => "PR link"
  }

  function FailurePrefix(c: CommentContext): string {
    "Failed to create " + ContextName(c) + " comment on Linear issue"
  }

  /** The error raised inside the call when the API answers `success: false`. */
  function SuccessFalse(): Thrown {
    Fail("Linear API returned success=false")
  }

  /**
   * `postLinearComment(client, issueId, body, context)`: exactly one `createComment` call;
   * it succeeds only when the API reports success, and every failure, including a
   * `success: false` answer, is wrapped with the call site's prefix.
   */
  function PostLinearComment(env: Env, issueId: string, body: string, ctx: CommentContext): (r: Run<()>)
    ensures r.calls == [CreateComment(issueId, body)]
    ensures r.outcome.Returned? <==> env.createComment(issueId, body) == Returned(true)
    ensures env.createComment(issueId, body) == Returned(false) ==>
              r.outcome == Threw(WrapError(SuccessFalse(), FailurePrefix(ctx)))
    ensures env.createComment(issueId, body).Threw? ==>
              r.outcome == Threw(WrapError(env.createComment(issueId, body).error, FailurePrefix(ctx)))
  {
    var outcome := match env.createComment(issueId, body)
                   case Returned(success) => if success then Returned(()) else Threw(WrapError(SuccessFalse(), FailurePrefix(ctx)))
                   case Threw(e) => Threw(WrapError(e, FailurePrefix(ctx)));
    Run(outcome, [CreateComment(issueId, body)])
  }

  /** The four call sites produce four different failure prefixes. */
  lemma FailurePrefixInjective(a: CommentContext, b: CommentContext)
    ensures FailurePrefix(a) == FailurePrefix(b) ==> a == b
  {
    assert FailurePrefix(a)[17] == ContextName(a)[0];
    assert FailurePrefix(b)[17] == ContextName(b)[0];
  }
}
