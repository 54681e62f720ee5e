/**
 * The `git_clone` tool: it validates the URL, an optional branch and an optional target
 * directory, infers the directory from the URL when none is given, refuses to overwrite an
 * existing directory, and runs `git clone` in the work directory.
 */
module McpGitClone {
  import opened Wrappers
  import opened Json
  import opened Errors
  import opened Schema
  import Text
  import opened McpValidation
  import opened McpTypes
  import opened ToolUtils

  datatype CloneArgs = CloneArgs(url: string, branch: Option<string>, directory: Option<string>)

  const UrlRule: StringRule := StringRule(1, None, "Repository URL is required", DefaultMessage(TooBig(0)))
  const BranchRule: StringRule := StringRule(0, Some(256), DefaultMessage(TooSmall(0)), "Branch name must be at most 256 characters")
  const DirectoryRule: StringRule := StringRule(0, Some(256), DefaultMessage(TooSmall(0)), "Directory name must be at most 256 characters")

  /** The URL's two refinements; both run, even on a URL that is too short. */
  function UrlRefineIssues(url: string): seq<Issue> {
    (if StartsWithDash(url) then [CustomIssue(["url"], UrlDashMessage)] else [])
    + (if Text.HasControlChar(url) then [CustomIssue(["url"], UrlControlMessage)] else [])
  }

  /** The directory's four refinements, in order; all run, even on a name that is too long. */
  function DirectoryRefineIssues(d: string): seq<Issue> {
    (if IsDotName(d) then [CustomIssue(["directory"], DirDotMessage)] else [])
    + (if HasSeparator(d) then [CustomIssue(["directory"], DirSeparatorMessage)] else [])
    + (if StartsWithDash(d) then [CustomIssue(["directory"], DirDashMessage)] else [])
    + (if Text.HasControlChar(d) then [CustomIssue(["directory"], DirControlMessage)] else [])
  }

  /** The schema's URL checks report what `validateGitUrl` reports, and its first issue carries that message. */
  lemma UrlRefinementsMatchValidation(url: string)
    ensures UrlRefineIssues(url) == [] <==> ValidateGitUrl(url).None?
    ensures UrlRefineIssues(url) != [] ==> UrlRefineIssues(url)[0].message == ValidateGitUrl(url).value
  {
  }

  /** The schema's directory checks report what `validateDirectoryName` reports, and its first issue carries that message. */
  lemma DirectoryRefinementsMatchValidation(d: string)
    ensures DirectoryRefineIssues(d) == [] <==> ValidateDirectoryName(d).None?
    ensures DirectoryRefineIssues(d) != [] ==> DirectoryRefineIssues(d)[0].message == ValidateDirectoryName(d).value
  {
  }

  function ParseUrl(v: Option<Json>): Parsed<string> {
    match RequiredString(v, ["url"], UrlRule)
    case Parsed(url, issues) => Parsed(url, issues + UrlRefineIssues(url))
    case Aborted(issues) => Aborted(issues)
  }

  function ParseDirectory(v: Option<Json>): Parsed<Option<string>> {
    match OptionalString(v, ["directory"], DirectoryRule)
    case Parsed(None, issues) => Parsed(None, issues)
    case Parsed(Some(d), issues) => Parsed(Some(d), issues + DirectoryRefineIssues(d))
    case Aborted(issues) => Aborted(issues)
  }

  /** `GitCloneInputSchema.parse`. */
  function ParseArgs(j: Json): (r: Result<CloneArgs, seq<Issue>>)
    ensures r.Ok? ==> ValidateGitUrl(r.value.url).None? && |r.value.url| >= 1
    ensures r.Ok? && r.value.directory.Some? ==> ValidateDirectoryName(r.value.directory.value).None?
    ensures r.Ok? && r.value.directory.Some? ==> |r.value.directory.value| <= 256
    ensures r.Ok? && r.value.branch.Some? ==> |r.value.branch.value| <= 256
    ensures r.Err? ==> r.error != []
  {
    if !j.JObj? then Err([TypeIssue([])])
    else
      var url := ParseUrl(Get(j, "url"));
      var branch := OptionalString(Get(j, "branch"), ["branch"], BranchRule);
      var dir := ParseDirectory(Get(j, "directory"));
      var issues := url.issues + branch.issues + dir.issues;
      if url.Parsed? && branch.Parsed? && dir.Parsed? && issues == [] then
        Ok(CloneArgs(url.value, branch.value, dir.value))
      else if issues == [] then
        assert false; Err([])
      else Err(issues)
  }

  // ---- Inferring the directory ---------------------------------------------------------

  /** `s.replace(/\/+$/, "")`: the trailing run of slashes removed. */
  function StripTrailingSlashes(s: string): (r: string)
    ensures |r| <= |s| && r == s[..|r|]
    ensures r == [] || r[|r| - 1] != '/'
    ensures forall i :: |r| <= i < |s| ==> s[i] == '/'
  {
    if s != [] && s[|s| - 1] == '/' then StripTrailingSlashes(s[..|s| - 1]) else s
  }

  /** `s.replace(/\.git$/, "")`: one `.git` suffix removed. */
  function StripGitSuffix(s: string): string {
    if Text.EndsWith(s, ".git") then s[..|s| - 4] else s
  }

  /** The part after the last slash. */
  function AfterLastSlash(s: string): (r: string)
    ensures '/' !in r
    ensures |r| <= |s| && r == s[|s| - |r|..]
    ensures |r| < |s| ==> s[|s| - |r| - 1] == '/'
  {
    if s == [] || s[|s| - 1] == '/' then []
    else AfterLastSlash(s[..|s| - 1]) + [s[|s| - 1]]
  }

  /** `path.basename(p)`: the last segment, trailing slashes ignored. */
  function Basename(p: string): string {
    AfterLastSlash(StripTrailingSlashes(p))
  }

  /** `inferDirectoryFromUrl`. */
  function InferDirectoryFromUrl(url: string): (r: string)
    ensures '/' !in r
  {
    Basename(StripGitSuffix(StripTrailingSlashes(url)))
  }

  lemma {:induction false} AfterLastSlashOfSegment(base: string, name: string)
    requires '/' !in name
    ensures AfterLastSlash(base + "/" + name) == name
  {
    var s := base + "/" + name;
    assert s[|s| - |name| - 1] == '/';
    assert s[|s| - |name|..] == name;
    assert forall i :: |s| - |name| <= i < |s| ==> s[i] == name[i - (|s| - |name|)];
  }

  lemma SegmentKeepsSuffix(base: string, name: string)
    requires !Text.EndsWith(name, ".git")
    ensures !Text.EndsWith(base + "/" + name, ".git")
  {
    var plain := base + "/" + name;
    if |name| >= 4 {
      assert plain[|plain| - 4..] == name[|name| - 4..];
    } else if |plain| >= 4 {
      assert plain[|plain| - |name| - 1] == '/';
      assert plain[|plain| - 4..][3 - |name|] == plain[|plain| - |name| - 1];
    }
  }

  /** A path already free of trailing slashes has the basename its last segment gives. */
  lemma BasenameOfSegment(base: string, name: string)
    requires name != [] && '/' !in name
    ensures Basename(base + "/" + name) == name
  {
    var plain := base + "/" + name;
    assert plain[|plain| - 1] == name[|name| - 1];
    StripSlashesSuffix(plain, 0);
    assert plain + Slashes(0) == plain;
    AfterLastSlashOfSegment(base, name);
  }

  /** The directory inferred from `<base>/<name>`, with any number of trailing slashes, is `name`. */
  lemma InferredFromLastSegment(base: string, name: string, slashes: nat)
    requires name != [] && '/' !in name && !Text.EndsWith(name, ".git")
    ensures InferDirectoryFromUrl(base + "/" + name + Slashes(slashes)) == name
  {
    var plain := base + "/" + name;
    assert plain[|plain| - 1] == name[|name| - 1];
    StripSlashesSuffix(plain, slashes);
    SegmentKeepsSuffix(base, name);
    assert StripGitSuffix(plain) == plain;
    BasenameOfSegment(base, name);
  }

  /** The directory inferred from `<base>/<name>.git`, with any number of trailing slashes, is `name`. */
  lemma InferredFromGitSegment(base: string, name: string, slashes: nat)
    requires name != [] && '/' !in name && !Text.EndsWith(name, ".git")
    ensures InferDirectoryFromUrl(base + "/" + name + ".git" + Slashes(slashes)) == name
  {
    var plain := base + "/" + name;
    var dotted := plain + ".git";
    assert dotted == base + "/" + name + ".git";
    StripSlashesSuffix(dotted, slashes);
    assert dotted[..|dotted| - 4] == plain;
    assert dotted[|dotted| - 4..] == ".git";
    assert StripGitSuffix(dotted) == plain;
    BasenameOfSegment(base, name);
  }

  function Slashes(n: nat): (r: string)
    ensures |r| == n && forall i :: 0 <= i < n ==> r[i] == '/'
  {
    if n == 0 then "" else Slashes(n - 1) + "/"
  }

  lemma {:induction false} StripSlashesSuffix(s: string, n: nat)
    requires s != [] && s[|s| - 1] != '/'
    ensures StripTrailingSlashes(s + Slashes(n)) == s
  {
    if n > 0 {
      var t := s + Slashes(n);
      assert t[..|t| - 1] == s + Slashes(n - 1);
      StripSlashesSuffix(s, n - 1);
    }
  }

  // ---- The handler ----------------------------------------------------------------------

  const CloneTimeoutMs: nat := 300000
  const MaxBuffer: nat := 10 * 1024 * 1024

  /** The target directory: the one given, or the one inferred from the URL. */
  function DirName(a: CloneArgs): string {
    if a.directory.Some? then a.directory.value else InferDirectoryFromUrl(a.url)
  }

  /** `path.join(workDir, dir)`. */
  function ClonePath(ctx: Context, a: CloneArgs): string {
    Text.PathJoin(ctx.workDir, DirName(a))
  }

  /** `git clone --progress [--branch <b>] <url> <dir>`; an empty branch adds nothing. */
  function CloneArgv(a: CloneArgs): (r: seq<string>)
    ensures |r| == (if a.branch.Some? && a.branch.value != "" then 6 else 4)
    ensures r[..2] == ["clone", "--progress"]
    ensures r[|r| - 2..] == [a.url, DirName(a)]
    ensures |r| == 6 ==> r[2..4] == ["--branch", a.branch.value]
  {
    ["clone", "--progress"]
    + (if a.branch.Some? && a.branch.value != "" then ["--branch", a.branch.value] else [])
    + [a.url, DirName(a)]
  }

  function CloneCall(ctx: Context, a: CloneArgs): McpCall {
    ExecFile("git", CloneArgv(a), ExecOptions(ctx.workDir, CloneTimeoutMs, MaxBuffer))
  }

  function ClonedBody(ctx: Context, a: CloneArgs): Json {
    JObj([("success", JBool(true)), ("message", JStr("Repository cloned successfully")),
          ("path", JStr(ClonePath(ctx, a))), ("url", JStr(a.url)),
          ("branch", JStr(if a.branch.Some? then a.branch.value else "default"))])
  }

  /** The handler as written: an existing target is refused, otherwise git runs. */
  function Handle(a: CloneArgs, ctx: Context): (r: McpRun<Response>)
    ensures |r.calls| >= 1 && r.calls[0] == Access(ClonePath(ctx, a))
    ensures ctx.access(ClonePath(ctx, a)).Returned? ==>
              r == McpRun(Returned(McpError("Directory already exists: " + DirName(a))), [Access(ClonePath(ctx, a))])
    ensures ctx.access(ClonePath(ctx, a)).Threw? ==> r.calls == [Access(ClonePath(ctx, a)), CloneCall(ctx, a)]
    ensures r.outcome.Returned? && r.outcome.value.isError.None? <==>
              ctx.access(ClonePath(ctx, a)).Threw? && ctx.execFile("git", CloneArgv(a), CloneCall(ctx, a).options).Returned?
    ensures r.outcome.Returned? && r.outcome.value.isError.None? ==> r.outcome.value == McpSuccess(ClonedBody(ctx, a), None)
  {
    var path := ClonePath(ctx, a);
    if ctx.access(path).Returned? then
      McpRun(Returned(McpError("Directory already exists: " + DirName(a))), [Access(path)])
    else
      var call := CloneCall(ctx, a);
      match ctx.execFile("git", CloneArgv(a), call.options)
      case Threw(e) => McpRun(Threw(e), [Access(path), call])
      case Returned(_) => McpRun(Returned(McpSuccess(ClonedBody(ctx, a), None)), [Access(path), call])
  }

  const ToolName: string := "git_clone"
  const ToolDescription: string :=
    "Git 저장소를 작업 디렉토리에 클론합니다. 원격 저장소의 소스 코드를 분석, 수정, 참고용으로 다운로드할 때 사용합니다."

  /** The tool as written. */
  function GitCloneToolAsWritten(): (t: Tool)
    ensures t.name == "git_clone"
  {
    DefineTool(ToolName, ToolDescription, ParseArgs, Handle)
  }

  /**
   * As written, a directory inferred from the URL is never checked: the URL
   * `https://example.com/--bare` is accepted, and its inferred directory `--bare`, which
   * begins with a dash, is handed to git as its last argument.
   */
  lemma DashUrlAccepted()
    ensures ParseArgs(JObj([("url", JStr("https://example.com/--bare"))]))
         == Ok(CloneArgs("https://example.com/--bare", None, None))
  {
    var url := "https://example.com/--bare";
    var args := JObj([("url", JStr(url))]);
    LookupFindsLast(args.members, 0);
    assert !Text.HasControlChar(url) by {
      forall i | 0 <= i < |url| ensures !Text.IsControl(url[i]) {}
    }
    assert UrlRefineIssues(url) == [];
  }

  lemma DashUrlInfersDashDirectory()
    ensures InferDirectoryFromUrl("https://example.com/--bare") == "--bare"
  {
    assert "https://example.com/--bare" == "https://example.com" + "/" + "--bare" + Slashes(0);
    assert !Text.EndsWith("--bare", ".git");
    InferredFromLastSegment("https://example.com", "--bare", 0);
  }

  /**
   * As written, a URL the schema accepts whose inferred directory begins with a dash gets
   * that directory handed to git, unchecked, as its last argument.
   */
  lemma InferredDashDirectoryReachesGit(url: string, ctx: Context)
    requires ParseArgs(JObj([("url", JStr(url))])) == Ok(CloneArgs(url, None, None))
    requires StartsWithDash(InferDirectoryFromUrl(url))
    requires ctx.access(ClonePath(ctx, CloneArgs(url, None, None))).Threw?
    ensures GitCloneToolAsWritten().handler(JObj([("url", JStr(url))]), ctx).calls
         == [Access(ClonePath(ctx, CloneArgs(url, None, None))), CloneCall(ctx, CloneArgs(url, None, None))]
    ensures CloneArgv(CloneArgs(url, None, None)) == ["clone", "--progress", url, InferDirectoryFromUrl(url)]
    ensures ValidateDirectoryName(InferDirectoryFromUrl(url)).Some?
  {
    var a := CloneArgs(url, None, None);
    AsWrittenRunsHandle(JObj([("url", JStr(url))]), a, ctx);
    var r := CloneArgv(a);
    assert r == r[..2] + r[|r| - 2..];
    DashNameRefused(InferDirectoryFromUrl(url));
  }

  /** On arguments the schema accepts, the tool as written runs `Handle` under the error wrapper. */
  lemma AsWrittenRunsHandle(args: Json, a: CloneArgs, ctx: Context)
    requires ParseArgs(args) == Ok(a)
    ensures GitCloneToolAsWritten().handler(args, ctx) == Catch(Handle(a, ctx))
  {
  }

  /** The handler's answer, caught or not, carries no metadata. */
  lemma CloneAnswerHasNoMeta(a: CloneArgs, ctx: Context)
    ensures Catch(Handle(a, ctx)).response.meta.None?
  {
    var run := Handle(a, ctx);
    if run.outcome.Returned? && run.outcome.value.isError.None? {
      assert run.outcome.value == McpSuccess(ClonedBody(ctx, a), None);
    }
  }

  /** A name beginning with a dash never passes `validateDirectoryName`. */
  lemma DashNameRefused(name: string)
    requires StartsWithDash(name)
    ensures ValidateDirectoryName(name).Some?
  {
  }

  /** The URL `https://example.com/--bare` is such a URL: it is accepted and its inferred directory is `--bare`. */
  lemma DashUrlExample()
    ensures ParseArgs(JObj([("url", JStr("https://example.com/--bare"))]))
         == Ok(CloneArgs("https://example.com/--bare", None, None))
    ensures InferDirectoryFromUrl("https://example.com/--bare") == "--bare"
    ensures StartsWithDash("--bare")
  {
    DashUrlAccepted();
    DashUrlInfersDashDirectory();
  }

  /** The handler with the inferred directory held to the same checks as a given one. */
  function HandleChecked(a: CloneArgs, ctx: Context): (r: McpRun<Response>)
    ensures a.directory.None? && ValidateDirectoryName(DirName(a)).Some? ==>
              r == McpRun(Returned(McpError(ValidateDirectoryName(DirName(a)).value)), [])
    ensures a.directory.Some? || ValidateDirectoryName(DirName(a)).None? ==> r == Handle(a, ctx)
  {
    if a.directory.None? && ValidateDirectoryName(DirName(a)).Some? then
      McpRun(Returned(McpError(ValidateDirectoryName(DirName(a)).value)), [])
    else Handle(a, ctx)
  }

  /** `git_clone`, with the inferred directory checked. */
  function GitCloneTool(): (t: Tool)
    ensures t.name == "git_clone"
  {
    DefineTool(ToolName, ToolDescription, ParseArgs, HandleChecked)
  }

  /** With the check in place, the only command the handler runs is the clone of a directory that passes every check. */
  lemma CheckedHandlerRunsSafeClone(a: CloneArgs, ctx: Context)
    requires ValidateGitUrl(a.url).None?
    requires a.directory.Some? ==> ValidateDirectoryName(a.directory.value).None?
    ensures forall c :: c in HandleChecked(a, ctx).calls && c.ExecFile? ==> c == CloneCall(ctx, a)
    ensures forall c :: c in HandleChecked(a, ctx).calls && c.ExecFile? ==> ValidateDirectoryName(DirName(a)).None?
  {
    var path := ClonePath(ctx, a);
    if a.directory.None? && ValidateDirectoryName(DirName(a)).Some? {
      assert HandleChecked(a, ctx).calls == [];
    } else if ctx.access(path).Returned? {
      assert HandleChecked(a, ctx).calls == [Access(path)];
    } else {
      assert HandleChecked(a, ctx).calls == [Access(path), CloneCall(ctx, a)];
      if a.directory.Some? {
        assert DirName(a) == a.directory.value;
      }
    }
  }

  /**
   * With the check in place, whenever git runs, neither its URL nor its directory argument
   * begins with a dash, and the directory is a single segment that passes every directory check.
   */
  lemma CheckedCloneArgumentsAreSafe(args: Json, ctx: Context)
    ensures var s := GitCloneTool().handler(args, ctx);
            forall c :: c in s.calls && c.ExecFile? ==>
              && c.file == "git"
              && |c.args| >= 4
              && ValidateGitUrl(c.args[|c.args| - 2]).None?
              && ValidateDirectoryName(c.args[|c.args| - 1]).None?
              && c.options == ExecOptions(ctx.workDir, 300000, 10485760)
  {
    var s := GitCloneTool().handler(args, ctx);
    GitCloneToolCalls(args, ctx);
    if ParseArgs(args).Ok? {
      var a := ParseArgs(args).value;
      CheckedHandlerRunsSafeClone(a, ctx);
      forall c | c in s.calls && c.ExecFile?
        ensures && c.file == "git"
                && |c.args| >= 4
                && ValidateGitUrl(c.args[|c.args| - 2]).None?
                && ValidateDirectoryName(c.args[|c.args| - 1]).None?
                && c.options == ExecOptions(ctx.workDir, 300000, 10485760)
      {
        assert c == CloneCall(ctx, a);
        SafeCloneCall(ctx, a);
      }
    }
  }

  /** The requests of the `git_clone` tool are those of the checked handler on parsed arguments, and none otherwise. */
  lemma GitCloneToolCalls(args: Json, ctx: Context)
    ensures GitCloneTool().handler(args, ctx).calls
         == if ParseArgs(args).Ok? then HandleChecked(ParseArgs(args).value, ctx).calls else []
  {
  }

  /** The clone command of arguments whose URL and directory pass their checks. */
  lemma SafeCloneCall(ctx: Context, a: CloneArgs)
    requires ValidateGitUrl(a.url).None? && ValidateDirectoryName(DirName(a)).None?
    ensures var c := CloneCall(ctx, a);
            && c.file == "git"
            && |c.args| >= 4
            && ValidateGitUrl(c.args[|c.args| - 2]).None?
            && ValidateDirectoryName(c.args[|c.args| - 1]).None?
            && c.options == ExecOptions(ctx.workDir, 300000, 10485760)
  {
    var argv := CloneArgv(a);
    assert argv[|argv| - 2..] == [a.url, DirName(a)];
    assert argv[|argv| - 2] == a.url && argv[|argv| - 1] == DirName(a);
  }
}
