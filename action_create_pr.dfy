/**
 * The `create_pr` action: check the token, check out and push the agent's branch, open the
 * pull request, and link it from the Linear issue when there is one.
 */
module CreatePrAction {
  import opened Wrappers
  import opened Errors
  import opened Collaborators
  import opened ExportSchema
  import opened ActionTypes
  import opened LinearComment
  import opened Git
  import Templates

  const MissingPr: string := "pr config is required for action 'create_pr'"
  const MissingToken: string := "GITHUB_TOKEN environment variable is required for create_pr action"

  /** `createPrHandler.validate`: the `pr` object is checked first, then the token. */
  function Validate(ctx: ActionContext): (r: Option<Thrown>)
    ensures r.None? <==> ctx.config.pr.Some? && Truthy(ctx.githubToken)
    ensures ctx.config.pr.None? ==> r == Some(Fail(MissingPr))
    ensures ctx.config.pr.Some? && !Truthy(ctx.githubToken) ==> r == Some(Fail(MissingToken))
  {
    if ctx.config.pr.None? then Some(Fail(MissingPr))
    else if !Truthy(ctx.githubToken) then Some(Fail(MissingToken))
    else None
  }

  /** The repository's directory: `repo_path` resolved against the working directory. */
  function RepoDir(ctx: ActionContext): string
    requires ctx.config.pr.Some?
  {
    Resolve(ctx.workDir, ctx.config.pr.value.repoPath)
  }

  /** The `gh pr create` request: the pr object's fields unchanged, in the repository's directory. */
  function Request(ctx: ActionContext): (q: PrRequest)
    requires Validate(ctx).None?
    ensures var p := ctx.config.pr.value;
            q.title == p.title && q.body == p.body && q.base == p.base && q.branch == p.branch
            && q.repo == p.repo && q.dir == RepoDir(ctx) && q.token == ctx.githubToken.value
  {
    var p := ctx.config.pr.value;
    PrRequest(RepoDir(ctx), p.repo, p.title, p.body, p.base, p.branch, ctx.githubToken.value)
  }

  /** The four git steps, each run only when the previous ones succeeded. */
  function GitSteps(env: Env, ctx: ActionContext): (r: Run<string>)
    requires Validate(ctx).None?
    ensures forall i :: 0 <= i < |r.calls| ==> r.calls[i].Exec? || r.calls[i].Exists?
  {
    var p := ctx.config.pr.value;
    var token := ctx.githubToken.value;
    var check := ValidateGitHubToken(env, token, p.repo);
    if check.outcome.Threw? then Run(Threw(check.outcome.error), check.calls)
    else
      var prep := PrepareGitBranch(env, RepoDir(ctx), p.branch);
      if prep.outcome.Threw? then Run(Threw(prep.outcome.error), check.calls + prep.calls)
      else
        var push := PushBranch(env, RepoDir(ctx), p.branch, token);
        if push.outcome.Threw? then Run(Threw(push.outcome.error), check.calls + prep.calls + push.calls)
        else
          var pr := CreateGitHubPr(env, Request(ctx));
          Run(pr.outcome, check.calls + prep.calls + push.calls + pr.calls)
  }

  /** The PR comment, posted only when the issue id is usable; otherwise nothing happens. */
  function PrComment(env: Env, ctx: ActionContext, prUrl: string): (r: Run<()>)
    requires Validate(ctx).None?
    ensures HasValidIssue(ctx.issueId) ==>
              r == PostLinearComment(env, ctx.issueId.value, Templates.PrCreatedComment(ctx.config.pr.value.title, prUrl), PrLinkContext)
    ensures !HasValidIssue(ctx.issueId) ==> r == Run(Returned(()), [])
    ensures forall i :: 0 <= i < |r.calls| ==> r.calls[i].CreateComment?
  {
    if HasValidIssue(ctx.issueId) then
      PostLinearComment(env, ctx.issueId.value, Templates.PrCreatedComment(ctx.config.pr.value.title, prUrl), PrLinkContext)
    else Run(Returned(()), [])
  }

  /** `createPrHandler.execute`: the git steps, then the PR comment; the result is exactly the PR's address. */
  function Execute(env: Env, ctx: ActionContext): (r: Run<ActionResult>)
    requires Validate(ctx).None?
    ensures var g := GitSteps(env, ctx);
            && (g.outcome.Threw? ==> r == Run(Threw(g.outcome.error), g.calls))
            && (g.outcome.Returned? ==>
                  var c := PrComment(env, ctx, g.outcome.value);
                  && r.calls == g.calls + c.calls
                  && (c.outcome.Returned? ==> r.outcome == Returned(map["pr_url" := g.outcome.value]))
                  && (c.outcome.Threw? ==> r.outcome == Threw(c.outcome.error)))
  {
    var g := GitSteps(env, ctx);
    match g.outcome
    case Threw(e) => Run(Threw(e), g.calls)
    case Returned(prUrl) =>
      var c := PrComment(env, ctx, prUrl);
      var calls := g.calls + c.calls;
      match c.outcome
      case Returned(_) => Run(Returned(map["pr_url" := prUrl]), calls)
      case Threw(e) => Run(Threw(e), calls)
  }

  /** The handler's calls are all calls to the outside world. */
  lemma {:induction false} ExecuteCallsServices(env: Env, ctx: ActionContext)
    requires Validate(ctx).None?
    ensures forall i :: 0 <= i < |Execute(env, ctx).calls| ==> IsServiceCall(Execute(env, ctx).calls[i])
  {
    var r := Execute(env, ctx);
    var g := GitSteps(env, ctx);
    if g.outcome.Returned? {
      var c := PrComment(env, ctx, g.outcome.value);
      forall i | 0 <= i < |r.calls| ensures IsServiceCall(r.calls[i]) {
        if i < |g.calls| {
          assert r.calls[i] == g.calls[i];
        } else {
          assert r.calls[i] == c.calls[i - |g.calls|];
        }
      }
    }
  }

  /**
   * The token is checked before anything touches the repository: when the check fails, the
   * run's calls are those of the check alone, and the error is the check's.
   */
  lemma TokenCheckedFirst(env: Env, ctx: ActionContext)
    requires Validate(ctx).None?
    requires ValidateGitHubToken(env, ctx.githubToken.value, ctx.config.pr.value.repo).outcome.Threw?
    ensures var check := ValidateGitHubToken(env, ctx.githubToken.value, ctx.config.pr.value.repo);
            Execute(env, ctx) == Run(Threw(check.outcome.error), check.calls)
    ensures forall i :: 0 <= i < |Execute(env, ctx).calls| ==> !Execute(env, ctx).calls[i].Exists?
  {
  }

  /**
   * On success the steps ran in order — token check, branch preparation, push, PR creation —
   * the PR was created with the configuration's fields in the resolved directory, and the
   * result is exactly the PR's address.
   */
  lemma {:induction false} SuccessfulRunOrder(env: Env, ctx: ActionContext)
    requires Validate(ctx).None?
    requires Execute(env, ctx).outcome.Returned?
    ensures var p := ctx.config.pr.value;
            var token := ctx.githubToken.value;
            var check := ValidateGitHubToken(env, token, p.repo);
            var prep := PrepareGitBranch(env, RepoDir(ctx), p.branch);
            var push := PushBranch(env, RepoDir(ctx), p.branch, token);
            var pr := CreateGitHubPr(env, Request(ctx));
            && check.outcome.Returned? && prep.outcome.Returned? && push.outcome.Returned? && pr.outcome.Returned?
            && Execute(env, ctx).calls[..|check.calls| + |prep.calls| + |push.calls| + 1]
               == check.calls + prep.calls + push.calls + [Exec(PrCreateCommand(Request(ctx)))]
            && Execute(env, ctx).outcome.value == map["pr_url" := pr.outcome.value]
  {
    var p := ctx.config.pr.value;
    var token := ctx.githubToken.value;
    var check := ValidateGitHubToken(env, token, p.repo);
    var prep := PrepareGitBranch(env, RepoDir(ctx), p.branch);
    var push := PushBranch(env, RepoDir(ctx), p.branch, token);
    var pr := CreateGitHubPr(env, Request(ctx));
    var g := GitSteps(env, ctx);
    assert g.outcome.Returned?;
    assert g.calls == check.calls + prep.calls + push.calls + [Exec(PrCreateCommand(Request(ctx)))];
    var r := Execute(env, ctx);
    assert r.calls[..|g.calls|] == g.calls;
  }
}
