/**
 * The GitHub and git operations of the export handler: the token check, branch checkout,
 * push and pull-request creation. Each runs a fixed sequence of commands through the
 * `exec` oracle and reclassifies a failure into an error carrying a fixed context prefix.
 */
module Git {
  import opened Wrappers
  import opened Errors
  import opened Collaborators
  import Text

  /** `gh auth status`, authenticated by `token`. */
  function AuthStatusCommand(token: string): Command {
    Command("gh", ["auth", "status"], None, Some(token))
  }

  /** `gh api repos/<repo> --jq .permissions.push`, authenticated by `token`. */
  function PushPermissionCommand(token: string, repo: string): Command {
    Command("gh", ["api", "repos/" + repo, "--jq", ".permissions.push"], None, Some(token))
  }

  const PushPermissionPrefix: string := "GitHub token does not have push permission to "

  /** The error raised when the permission query does not answer exactly `true`. */
  function NoPushPermission(repo: string): Thrown {
    Fail(PushPermissionPrefix + repo)
  }

  /**
   * The catch block of the repository check: an `Error` whose message mentions push
   * permission is rethrown as it is, anything else is wrapped.
   */
  function ClassifyRepoError(e: Thrown, repo: string): (r: Thrown)
    ensures IsError(e) && Text.Contains(GetErrorMessage(e), "push permission") ==> r == e
    ensures !(IsError(e) && Text.Contains(GetErrorMessage(e), "push permission"))
            ==> r == WrapError(e, "Cannot access repository " + repo)
  {
    if IsError(e) && Text.Contains(GetErrorMessage(e), "push permission") then e
    else WrapError(e, "Cannot access repository " + repo)
  }

  /** True when the token is blank by JavaScript's `trim`. */
  predicate IsBlank(token: string) {
    Text.Trim(token, Text.IsJsSpace) == ""
  }

  /** The permission query's verdict: nothing when it answered `true`, the error to classify otherwise. */
  function PermissionError(out: Outcome<string>, repo: string): Option<Thrown> {
    match out
    case Threw(e) => Some(e)
    case Returned(s) => if Text.Trim(s, Text.IsJsSpace) == "true" then None else Some(NoPushPermission(repo))
  }

  /** `validateGitHubToken(token, repo)`. */
  function ValidateGitHubToken(env: Env, token: string, repo: string): (r: Run<()>)
    ensures IsBlank(token) <==> r.calls == []
    ensures IsBlank(token) ==> r.outcome == Threw(Fail("GITHUB_TOKEN is empty or whitespace"))
    ensures r.calls <= [Exec(AuthStatusCommand(token)), Exec(PushPermissionCommand(token, repo))]
    ensures forall i :: 0 <= i < |r.calls| ==> r.calls[i].Exec?
    ensures r.outcome.Returned? <==>
              !IsBlank(token) && env.exec(AuthStatusCommand(token)).Returned?
              && PermissionError(env.exec(PushPermissionCommand(token, repo)), repo).None?
    ensures !IsBlank(token) && env.exec(AuthStatusCommand(token)).Threw? ==>
              r == Run(Threw(WrapError(env.exec(AuthStatusCommand(token)).error, "GitHub token is invalid or expired")),
                       [Exec(AuthStatusCommand(token))])
  {
    if IsBlank(token) then Run(Threw(Fail("GITHUB_TOKEN is empty or whitespace")), [])
    else
      var auth := AuthStatusCommand(token);
      match env.exec(auth)
      case Threw(e) => Run(Threw(WrapError(e, "GitHub token is invalid or expired")), [Exec(auth)])
      case Returned(_) =>
        var check := CheckPushPermission(env, token, repo);
        Run(check.outcome, [Exec(auth)] + check.calls)
  }

  /** The second `try` of `validateGitHubToken`: the permission query and the classification of its failure. */
  function CheckPushPermission(env: Env, token: string, repo: string): (r: Run<()>)
    ensures r.calls == [Exec(PushPermissionCommand(token, repo))]
    ensures r.outcome.Returned? <==> PermissionError(env.exec(PushPermissionCommand(token, repo)), repo).None?
    ensures r.outcome.Threw? ==>
              r.outcome.error == ClassifyRepoError(PermissionError(env.exec(PushPermissionCommand(token, repo)), repo).value, repo)
  {
    var api := PushPermissionCommand(token, repo);
    var outcome := match PermissionError(env.exec(api), repo)
                   case None => Returned(())
                   case Some(e) => Threw(ClassifyRepoError(e, repo));
    Run(outcome, [Exec(api)])
  }

  /** The push-permission error mentions push permission, so the catch block rethrows it unwrapped. */
  lemma NoPushPermissionRethrown(repo: string)
    ensures ClassifyRepoError(NoPushPermission(repo), repo) == NoPushPermission(repo)
  {
    var m := PushPermissionPrefix + repo;
    assert m[27..42] == "push permission";
    assert Text.OccursAt(m, "push permission", 27);
  }

  /**
   * A token that passes `gh auth status` but whose permission query answers anything other
   * than `true` fails with exactly the push-permission error, not a wrapped one.
   */
  lemma DeniedPushIsReportedPlainly(env: Env, token: string, repo: string, out: string)
    requires !IsBlank(token)
    requires env.exec(AuthStatusCommand(token)).Returned?
    requires env.exec(PushPermissionCommand(token, repo)) == Returned(out)
    requires Text.Trim(out, Text.IsJsSpace) != "true"
    ensures ValidateGitHubToken(env, token, repo).outcome == Threw(Fail(PushPermissionPrefix + repo))
  {
    NoPushPermissionRethrown(repo);
  }

  /** A failing permission query whose error does not mention push permission is wrapped with the repository. */
  lemma RepoAccessFailureWrapped(env: Env, token: string, repo: string, e: Thrown)
    requires !IsBlank(token)
    requires env.exec(AuthStatusCommand(token)).Returned?
    requires env.exec(PushPermissionCommand(token, repo)) == Threw(e)
    requires !Text.Contains(GetErrorMessage(e), "push permission")
    ensures ValidateGitHubToken(env, token, repo).outcome == Threw(WrapError(e, "Cannot access repository " + repo))
  {
  }

  /** An outcome whose error, if any, is wrapped with `context`. */
  function WrapOutcome<T>(o: Outcome<T>, context: string): (r: Outcome<T>)
    ensures o.Returned? ==> r == o
    ensures o.Threw? ==> r == Threw(WrapError(o.error, context))
  {
    match o
    case Returned(v) => Returned(v)
    case Threw(e) => Threw(WrapError(e, context))
  }

  /** The two commands of `prepareGitBranch`: mark the directory safe, then check the branch out in it. */
  function PrepareCommands(dir: string, branch: string): seq<Command> {
    [Command("git", ["config", "--global", "--add", "safe.directory", dir], None, None),
     Command("git", ["checkout", branch], Some(dir), None)]
  }

  /** `prepareGitBranch(dir, branch)`: the directory must exist; command failures are wrapped. */
  function PrepareGitBranch(env: Env, dir: string, branch: string): (r: Run<()>)
    ensures |r.calls| >= 1 && r.calls[0] == Exists(dir)
    ensures forall i :: 1 <= i < |r.calls| ==> r.calls[i].Exec?
    ensures !env.pathExists(dir) ==> r == Run(Threw(Fail("Repository directory does not exist: " + dir)), [Exists(dir)])
    ensures env.pathExists(dir) ==>
              var run := RunAll(env, PrepareCommands(dir, branch));
              r == Run(WrapOutcome(run.outcome, "Git operation failed"), [Exists(dir)] + run.calls)
  {
    if !env.pathExists(dir) then Run(Threw(Fail("Repository directory does not exist: " + dir)), [Exists(dir)])
    else
      var run := RunAll(env, PrepareCommands(dir, branch));
      Run(WrapOutcome(run.outcome, "Git operation failed"), [Exists(dir)] + run.calls)
  }

  /** The two commands of `pushBranch`: install the credential helper, then push the branch upstream. */
  function PushCommands(dir: string, branch: string, token: string): seq<Command> {
    [Command("gh", ["auth", "setup-git"], None, Some(token)),
     Command("git", ["push", "-u", "origin", branch], Some(dir), Some(token))]
  }

  /** `pushBranch(dir, branch, token)`: command failures are wrapped. */
  function PushBranch(env: Env, dir: string, branch: string, token: string): (r: Run<()>)
    ensures var run := RunAll(env, PushCommands(dir, branch, token));
            r == Run(WrapOutcome(run.outcome, "Git push failed"), run.calls)
    ensures forall i :: 0 <= i < |r.calls| ==> r.calls[i].Exec?
  {
    var run := RunAll(env, PushCommands(dir, branch, token));
    Run(WrapOutcome(run.outcome, "Git push failed"), run.calls)
  }

  /** What `createGitHubPr` is given. */
  datatype PrRequest = PrRequest(dir: string, repo: string, title: string, body: string, base: string, branch: string, token: string)

  /** `gh pr create` with the request's fields, run in the repository directory. */
  function PrCreateCommand(q: PrRequest): (r: Command)
    ensures r.args == ["pr", "create", "--repo", q.repo, "--title", q.title, "--body", q.body,
                       "--base", q.base, "--head", q.branch]
    ensures r.cwd == Some(q.dir) && r.ghToken == Some(q.token)
  {
    Command("gh", ["pr", "create", "--repo", q.repo, "--title", q.title, "--body", q.body,
                   "--base", q.base, "--head", q.branch], Some(q.dir), Some(q.token))
  }

  /** `createGitHubPr(q)`: the trimmed output of `gh pr create` (the PR's address); failures are wrapped. */
  function CreateGitHubPr(env: Env, q: PrRequest): (r: Run<string>)
    ensures r.calls == [Exec(PrCreateCommand(q))]
    ensures env.exec(PrCreateCommand(q)).Returned? ==>
              r.outcome == Returned(Text.Trim(env.exec(PrCreateCommand(q)).value, Text.IsJsSpace))
    ensures env.exec(PrCreateCommand(q)).Threw? ==>
              r.outcome == Threw(WrapError(env.exec(PrCreateCommand(q)).error, "GitHub CLI 'gh pr create' failed"))
  {
    var c := PrCreateCommand(q);
    match env.exec(c)
    case Returned(out) => Run(Returned(Text.Trim(out, Text.IsJsSpace)), [Exec(c)])
    case Threw(e) => Run(Threw(WrapError(e, "GitHub CLI 'gh pr create' failed")), [Exec(c)])
  }

  /**
   * `prepareGitBranch` succeeds exactly when the directory exists and both commands succeed;
   * it stops at the first failing command, and no command runs before the existence test.
   */
  lemma {:induction false} PrepareFailFast(env: Env, dir: string, branch: string)
    ensures var r := PrepareGitBranch(env, dir, branch);
            var cs := PrepareCommands(dir, branch);
            && (r.outcome.Returned? <==> env.pathExists(dir) && env.exec(cs[0]).Returned? && env.exec(cs[1]).Returned?)
            && (env.pathExists(dir) && env.exec(cs[0]).Threw? ==>
                  r == Run(Threw(WrapError(env.exec(cs[0]).error, "Git operation failed")), [Exists(dir), Exec(cs[0])]))
            && (env.pathExists(dir) && env.exec(cs[0]).Returned? && env.exec(cs[1]).Threw? ==>
                  r == Run(Threw(WrapError(env.exec(cs[1]).error, "Git operation failed")), [Exists(dir), Exec(cs[0]), Exec(cs[1])]))
  {
    var cs := PrepareCommands(dir, branch);
    if env.pathExists(dir) {
      var ft := FirstThrow(env, cs);
      if ft.Some? {
        assert cs[..1] == [cs[0]];
        assert cs[..2] == cs;
      }
    }
  }

  /** `pushBranch` stops at a failing credential setup: the push itself is never attempted. */
  lemma {:induction false} PushFailFast(env: Env, dir: string, branch: string, token: string)
    ensures var r := PushBranch(env, dir, branch, token);
            var cs := PushCommands(dir, branch, token);
            && (r.outcome.Returned? <==> env.exec(cs[0]).Returned? && env.exec(cs[1]).Returned?)
            && (env.exec(cs[0]).Threw? ==>
                  r == Run(Threw(WrapError(env.exec(cs[0]).error, "Git push failed")), [Exec(cs[0])]))
            && (env.exec(cs[0]).Returned? ==> r.calls == [Exec(cs[0]), Exec(cs[1])])
  {
    var cs := PushCommands(dir, branch, token);
    var ft := FirstThrow(env, cs);
    if ft.Some? {
      assert cs[..1] == [cs[0]];
      assert cs[..2] == cs;
    }
  }
}
