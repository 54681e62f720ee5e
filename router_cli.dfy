/**
 * The router's command line: it checks its arguments, decides, writes "true" or "false" to
 * the output file, then uploads the transcripts without letting that affect the outcome.
 * Its entry point turns any crash other than an exit into a best-effort "false" output and
 * exit status 1.
 */
module RouterCli {
  import opened Wrappers
  import opened Json
  import opened RouterConfig
  import opened RouterLogic
  import opened TranscriptUpload

  /** The parsed arguments: `--depth`, `--max-depth`, `--export-config` (default `{}`) and `--output`. */
  datatype Args = Args(depth: int, maxDepth: int, exportConfig: string, output: string)

  /** How `main` ends: normally, by `SystemExit`, or by an exception. */
  datatype Exit = Completed | SystemExit(code: int) | Raised(error: PyError)

  /**
   * The router's surroundings: the environment, the argument parser (nothing when it refuses
   * the command line), `json.loads`, and the transcript storage.
   */
  datatype World = World(
    env: Env,
    parseArgs: seq<string> -> Option<Args>,
    loads: string -> Option<Json>,
    storage: Storage)

  /** The exit status of `parser.error`. */
  const UsageExit: int := 2

  /** `main` up to and including the output write: how it ends so far, and the files afterwards. */
  datatype Decided = Decided(exit: Exit, files: Files, calls: seq<FileCall>)

  /**
   * The files after the decision's requests: the export configuration file is gone once its
   * removal was requested and succeeded; a failed removal is only logged and leaves it.
   */
  function AfterRemovals(files: Files, calls: seq<FileCall>, path: string): (r: Files)
    ensures r.writable == files.writable && r.removable == files.removable
    ensures path !in r.contents <==> path !in files.contents || (Remove(path) in calls && files.removable(path))
    ensures forall p :: p != path ==> (p in r.contents <==> p in files.contents)
    ensures forall p :: p in r.contents ==> p in files.contents && r.contents[p] == files.contents[p]
  {
    if Remove(path) in calls && files.removable(path) then files.(contents := files.contents - {path}) else files
  }

  /** `write_output` of the decision: a completed write leaves "true" or "false" and a newline in the output file. */
  function WriteDecision(files: Files, continuing: bool, output: string, calls: seq<FileCall>): (r: Decided)
    ensures r.exit.Completed? || r.exit.Raised?
    ensures r.exit.Completed? <==> files.writable(output)
    ensures r.exit.Completed? ==>
              output in r.files.contents && r.files.contents[output] == (if continuing then "true\n" else "false\n")
  {
    var written := WriteOutput(files, if continuing then "true" else "false", output);
    match written.outcome
    case Err(e) => Decided(Raised(e), files, calls + written.calls)
    case Ok(after) => Decided(Completed, after, calls + written.calls)
  }

  /** The decision and the output write of `main`. */
  function Decide(argv: seq<string>, w: World, files: Files): (r: Decided)
    ensures w.parseArgs(argv).None? ==> r == Decided(SystemExit(UsageExit), files, [])
    ensures w.parseArgs(argv).Some? && (w.parseArgs(argv).value.depth < 0 || w.parseArgs(argv).value.maxDepth < 1) ==>
              r == Decided(SystemExit(UsageExit), files, [])
    ensures r.exit.Completed? ==>
              var a := w.parseArgs(argv).value;
              var d := ShouldContinue(FromEnv(w.env), a.exportConfig, a.depth, a.maxDepth, w.loads);
              && a.depth >= 0 && a.maxDepth >= 1 && d.outcome.Ok?
              && a.output in r.files.contents
              && r.files.contents[a.output] == (if d.outcome.value.0 then "true\n" else "false\n")
  {
    match w.parseArgs(argv)
    case None => Decided(SystemExit(UsageExit), files, [])
    case Some(a) =>
      if a.depth < 0 || a.maxDepth < 1 then Decided(SystemExit(UsageExit), files, [])
      else
        var config := FromEnv(w.env);
        var d := ShouldContinue(config, a.exportConfig, a.depth, a.maxDepth, w.loads);
        var afterDecision := AfterRemovals(files, d.calls, config.exportConfig);
        match d.outcome
        case Err(e) => Decided(Raised(e), afterDecision, d.calls)
        case Ok((continuing, _)) => WriteDecision(afterDecision, continuing, a.output, d.calls)
  }

  /** The storage requests of `_upload_transcripts`: none without a bucket or without transcripts. */
  function QuietUploads(env: Env, config: RouterPaths, st: Storage): seq<UploadCall> {
    var uploadConfig := UploadConfigFromEnv(env);
    var files := FindTranscriptFiles(config.transcriptDir, st);
    if uploadConfig.None? || files == [] then []
    else UploadTrace(uploadConfig.value.bucketName, AllEntries(config.transcriptDir, files, st), st)
  }

  /** `_upload_transcripts`: skipped without a bucket; any failure is only logged. */
  method UploadQuietly(env: Env, config: RouterPaths, st: Storage) returns (calls: seq<UploadCall>)
    ensures calls == QuietUploads(env, config, st)
    ensures UploadConfigFromEnv(env).None? ==> calls == []
    ensures UploadConfigFromEnv(env).Some? && FindTranscriptFiles(config.transcriptDir, st) == [] ==> calls == []
    ensures UploadConfigFromEnv(env).Some? && FindTranscriptFiles(config.transcriptDir, st) != [] ==>
              calls == UploadTrace(UploadConfigFromEnv(env).value.bucketName,
                                   AllEntries(config.transcriptDir, FindTranscriptFiles(config.transcriptDir, st), st), st)
  {
    var uploadConfig := UploadConfigFromEnv(env);
    if uploadConfig.None? {
      return [];
    }
    var count;
    count, calls := UploadTranscripts(config.transcriptDir, uploadConfig.value, st);
  }

  /** The body of `main`: the decision and its output, then the transcript upload, which cannot change either. */
  method MainFlow(argv: seq<string>, w: World, files: Files) returns (exit: Exit, files': Files, fileCalls: seq<FileCall>, uploadCalls: seq<UploadCall>)
    ensures var d := Decide(argv, w, files);
            exit == d.exit && files' == d.files && fileCalls == d.calls
    ensures !Decide(argv, w, files).exit.Completed? ==> uploadCalls == []
    ensures Decide(argv, w, files).exit.Completed? && UploadConfigFromEnv(w.env).None? ==> uploadCalls == []
    ensures Decide(argv, w, files).exit.Completed? ==> uploadCalls == QuietUploads(w.env, FromEnv(w.env), w.storage)
  {
    var d := Decide(argv, w, files);
    exit, files', fileCalls := d.exit, d.files, d.calls;
    uploadCalls := [];
    if d.exit.Completed? {
      uploadCalls := UploadQuietly(w.env, FromEnv(w.env), w.storage);
    }
  }

  /** The position of the first occurrence of `x` in `s` (`list.index`). */
  function FirstIndex(s: seq<string>, x: string): (r: Option<nat>)
    ensures r.None? <==> x !in s
    ensures r.Some? ==> r.value < |s| && s[r.value] == x && x !in s[..r.value]
  {
    if s == [] then None
    else if s[0] == x then Some(0)
    else
      var r := FirstIndex(s[1..], x);
      if r.None? then None
      else
        assert s[..r.value + 1] == [s[0]] + s[1..][..r.value];
        Some(r.value + 1)
  }

  /**
   * `_write_fallback_output`: "false" to the path after the first `--output`. A missing flag,
   * a flag with nothing after it, an empty path and an unwritable path each leave the files
   * as they were.
   */
  function FallbackOutput(argv: seq<string>, files: Files): (r: Files)
    ensures "--output" !in argv ==> r == files
    ensures FirstIndex(argv, "--output").Some? && FirstIndex(argv, "--output").value + 1 >= |argv| ==> r == files
    ensures FirstIndex(argv, "--output").Some? && FirstIndex(argv, "--output").value + 1 < |argv| ==>
              var path := argv[FirstIndex(argv, "--output").value + 1];
              r == if path != "" && files.writable(path) then files.(contents := files.contents[path := "false\n"]) else files
  {
    match FirstIndex(argv, "--output")
    case None => files
    case Some(i) =>
      if i + 1 >= |argv| then files
      else
        var path := argv[i + 1];
        if path == "" || !files.writable(path) then files
        else files.(contents := files.contents[path := "false\n"])
  }

  /** `run`: an exit passes through unchanged; any other crash writes the fallback and exits with 1. */
  method Run(argv: seq<string>, w: World, files: Files) returns (status: int, files': Files, uploadCalls: seq<UploadCall>)
    ensures var d := Decide(argv, w, files);
            && (d.exit.Completed? ==> status == 0 && files' == d.files)
            && (d.exit.SystemExit? ==> status == d.exit.code && files' == d.files)
            && (d.exit.Raised? ==> status == 1 && files' == FallbackOutput(argv, d.files))
  {
    var exit, afterMain, fileCalls;
    exit, afterMain, fileCalls, uploadCalls := MainFlow(argv, w, files);
    match exit
    case Completed =>
      status, files' := 0, afterMain;
    case SystemExit(code) =>
      status, files' := code, afterMain;
    case Raised(_) =>
      files' := FallbackOutput(argv, afterMain);
      status := 1;
  }

  /** Invalid depths end with the usage status before anything is written. */
  lemma InvalidDepthWritesNothing(argv: seq<string>, w: World, files: Files)
    requires w.parseArgs(argv).Some? && (w.parseArgs(argv).value.depth < 0 || w.parseArgs(argv).value.maxDepth < 1)
    ensures Decide(argv, w, files).exit == SystemExit(2) && Decide(argv, w, files).files == files
    ensures Decide(argv, w, files).calls == []
  {
  }

  /** The output says "true" exactly when the decision is to continue, on every completed run. */
  lemma {:induction false} OutputIsDecision(argv: seq<string>, w: World, files: Files)
    requires w.parseArgs(argv).Some?
    requires w.parseArgs(argv).value.depth >= 0 && w.parseArgs(argv).value.maxDepth >= 1
    requires files.writable(w.parseArgs(argv).value.output)
    ensures var a := w.parseArgs(argv).value;
            var d := ShouldContinue(FromEnv(w.env), a.exportConfig, a.depth, a.maxDepth, w.loads);
            && (Decide(argv, w, files).exit.Completed? <==> d.outcome.Ok?)
            && (d.outcome.Ok? ==> Decide(argv, w, files).files.contents[a.output] == (if d.outcome.value.0 then "true\n" else "false\n"))
  {
    var a := w.parseArgs(argv).value;
    var config := FromEnv(w.env);
    var d := ShouldContinue(config, a.exportConfig, a.depth, a.maxDepth, w.loads);
    var afterDecision := AfterRemovals(files, d.calls, config.exportConfig);
    DecideUnfolds(argv, w, files);
    if d.outcome.Ok? {
      var r := WriteDecision(afterDecision, d.outcome.value.0, a.output, d.calls);
      assert r.exit.Completed?;
    }
  }

  /** On valid arguments, `main` raises the decision's error or writes its answer. */
  lemma DecideUnfolds(argv: seq<string>, w: World, files: Files)
    requires w.parseArgs(argv).Some?
    requires w.parseArgs(argv).value.depth >= 0 && w.parseArgs(argv).value.maxDepth >= 1
    ensures var a := w.parseArgs(argv).value;
            var config := FromEnv(w.env);
            var d := ShouldContinue(config, a.exportConfig, a.depth, a.maxDepth, w.loads);
            var afterDecision := AfterRemovals(files, d.calls, config.exportConfig);
            && afterDecision.writable == files.writable
            && (d.outcome.Err? ==> Decide(argv, w, files) == Decided(Raised(d.outcome.error), afterDecision, d.calls))
            && (d.outcome.Ok? ==> Decide(argv, w, files) == WriteDecision(afterDecision, d.outcome.value.0, a.output, d.calls))
  {
  }

  /** The fallback goes to the path after the FIRST `--output`, even when the flag is repeated. */
  lemma FallbackUsesFirstOutput(pre: seq<string>, path: string, post: seq<string>, files: Files)
    requires "--output" !in pre && path != "" && files.writable(path)
    ensures FallbackOutput(pre + ["--output", path] + post, files).contents == files.contents[path := "false\n"]
  {
    var argv := pre + ["--output", path] + post;
    assert argv[|pre|] == "--output" && argv[|pre| + 1] == path;
    assert argv[..|pre|] == pre;
    var i := FirstIndex(argv, "--output");
    assert "--output" in argv[..|pre| + 1];
    assert forall k :: 0 <= k < |pre| ==> argv[k] == pre[k];
  }
}
