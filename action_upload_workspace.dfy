/** The `upload_workspace` action: archive the workspace, upload it, and link it from the Linear issue. */
module UploadWorkspaceAction {
  import opened Wrappers
  import opened Errors
  import opened Collaborators
  import opened ActionTypes
  import opened LinearComment
  import Templates
  import Text

  const MissingIssue: string := "upload_workspace action requires a valid Linear issue (linear_issue_id must be set)"

  /** `uploadWorkspaceHandler.validate`: only the issue id is inspected. */
  function Validate(ctx: ActionContext): (r: Option<Thrown>)
    ensures r.None? <==> HasValidIssue(ctx.issueId)
    ensures r.Some? ==> r.value == Fail(MissingIssue)
  {
    if !HasValidIssue(ctx.issueId) then Some(Fail(MissingIssue)) else None
  }

  /** The archive's name, stamped with the clock in milliseconds. */
  function ArchiveName(nowMs: nat): (r: string)
    ensures Text.StartsWith(r, "workspace-") && Text.EndsWith(r, ".zip")
  {
    "workspace-" + Text.NatToString(nowMs) + ".zip"
  }

  /** The comment that links the uploaded archive. */
  function UploadComment(ctx: ActionContext, nowMs: nat, assetUrl: string): Call
    requires ctx.issueId.Some?
  {
    CreateComment(ctx.issueId.value, Templates.WorkspaceUploadComment(ArchiveName(nowMs), assetUrl))
  }

  /**
   * `uploadWorkspaceHandler.execute`: zip, then upload under `ArchiveName`, then comment;
   * the first failing step ends the run with its own error, and success returns exactly the
   * asset address.
   */
  function Execute(env: Env, ctx: ActionContext): (r: Run<ActionResult>)
    requires Validate(ctx).None?
    ensures |r.calls| >= 1 && r.calls[0] == Zip(ctx.workDir, ctx.zipOutputPath)
    ensures forall i :: 0 <= i < |r.calls| ==> IsServiceCall(r.calls[i])
    ensures env.zip(ctx.workDir, ctx.zipOutputPath).Threw? ==>
              r == Run(Threw(env.zip(ctx.workDir, ctx.zipOutputPath).error), [Zip(ctx.workDir, ctx.zipOutputPath)])
    ensures env.zip(ctx.workDir, ctx.zipOutputPath).Returned? ==>
              var size := env.zip(ctx.workDir, ctx.zipOutputPath).value;
              var up := env.upload(ArchiveName(env.nowMs), size);
              && |r.calls| >= 2
              && r.calls[..2] == [Zip(ctx.workDir, ctx.zipOutputPath), Upload(ArchiveName(env.nowMs), size)]
              && (up.Threw? ==> r == Run(Threw(up.error), r.calls[..2]))
              && (up.Returned? ==>
                    var post := PostLinearComment(env, ctx.issueId.value,
                                  Templates.WorkspaceUploadComment(ArchiveName(env.nowMs), up.value), UploadContext);
                    && r.calls == r.calls[..2] + [UploadComment(ctx, env.nowMs, up.value)]
                    && (post.outcome.Returned? ==> r.outcome == Returned(map["asset_url" := up.value]))
                    && (post.outcome.Threw? ==> r.outcome == Threw(post.outcome.error)))
  {
    var zipCall := Zip(ctx.workDir, ctx.zipOutputPath);
    match env.zip(ctx.workDir, ctx.zipOutputPath)
    case Threw(e) => Run(Threw(e), [zipCall])
    case Returned(size) =>
      var filename := ArchiveName(env.nowMs);
      var uploadCall := Upload(filename, size);
      match env.upload(filename, size)
      case Threw(e) => Run(Threw(e), [zipCall, uploadCall])
      case Returned(assetUrl) =>
        var post := PostLinearComment(env, ctx.issueId.value, Templates.WorkspaceUploadComment(filename, assetUrl), UploadContext);
        var calls := [zipCall, uploadCall] + post.calls;
        match post.outcome
        case Returned(_) => Run(Returned(map["asset_url" := assetUrl]), calls)
        case Threw(e) => Run(Threw(e), calls)
  }

  /**
   * The upload succeeds exactly when all three steps do, and then the uploaded file name is
   * the one the comment links, with the returned address as the link target.
   */
  lemma {:induction false} SucceedsIffAllStepsDo(env: Env, ctx: ActionContext)
    requires Validate(ctx).None?
    ensures var r := Execute(env, ctx);
            r.outcome.Returned? <==>
              && env.zip(ctx.workDir, ctx.zipOutputPath).Returned?
              && env.upload(ArchiveName(env.nowMs), env.zip(ctx.workDir, ctx.zipOutputPath).value).Returned?
              && var url := env.upload(ArchiveName(env.nowMs), env.zip(ctx.workDir, ctx.zipOutputPath).value).value;
                 env.createComment(ctx.issueId.value, Templates.WorkspaceUploadComment(ArchiveName(env.nowMs), url)) == Returned(true)
    ensures var r := Execute(env, ctx);
            r.outcome.Returned? ==>
              && |r.calls| == 3
              && r.calls[1].Upload?
              && r.calls[2] == CreateComment(ctx.issueId.value,
                                 Templates.WorkspaceUploadComment(r.calls[1].filename, r.outcome.value["asset_url"]))
              && r.outcome.value.Keys == {"asset_url"}
  {
  }
}
