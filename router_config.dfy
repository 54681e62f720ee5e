/**
 * The router's configuration: the two paths it derives from the work directory, and the
 * optional transcript-upload settings. Both are immutable values.
 */
module RouterConfig {
  import opened Wrappers
  import Text
  import ExportConstants

  /** The process environment: a variable is either unset or holds a string. */
  type Env = map<string, string>

  const ExportConfigFilename: string := "export_config.json"
  const TranscriptDirName: string := ".transcripts"
  const DefaultWorkDir: string := "/work"
  const DefaultRegion: string := "ap-northeast-2"

  /** `os.environ.get(name, fallback)`: only an unset variable gives the fallback; an empty one is kept. */
  function EnvGet(env: Env, name: string, fallback: string): (r: string)
    ensures name in env ==> r == env[name]
    ensures name !in env ==> r == fallback
  {
    if name in env then env[name] else fallback
  }

  /** `os.path.join(a, b)` for two parts: an absolute `b` replaces `a`; a separator is added only when needed. */
  function PyJoin(a: string, b: string): (r: string)
    ensures Text.StartsWith(b, "/") ==> r == b
    ensures !Text.StartsWith(b, "/") && a != [] && a[|a| - 1] != '/' ==> r == a + "/" + b
    ensures !Text.StartsWith(b, "/") && (a == [] || a[|a| - 1] == '/') ==> r == a + b
  {
    if Text.StartsWith(b, "/") then b
    else if a == [] || a[|a| - 1] == '/' then a + b
    else a + "/" + b
  }

  /** `RouterConfig`: where the agent's export configuration and its transcripts are. */
  datatype RouterPaths = RouterPaths(exportConfig: string, transcriptDir: string)

  /** `RouterConfig.from_env`. */
  function FromEnv(env: Env): (r: RouterPaths)
    ensures r.exportConfig == PyJoin(EnvGet(env, "WORK_DIR", DefaultWorkDir), ExportConfigFilename)
    ensures r.transcriptDir == PyJoin(EnvGet(env, "WORK_DIR", DefaultWorkDir), TranscriptDirName)
  {
    var workDir := EnvGet(env, "WORK_DIR", DefaultWorkDir);
    RouterPaths(PyJoin(workDir, ExportConfigFilename), PyJoin(workDir, TranscriptDirName))
  }

  /** `TranscriptUploadConfig`: the bucket and the region. */
  datatype UploadConfig = UploadConfig(bucketName: string, region: string)

  /** `TranscriptUploadConfig.from_env`: nothing without a bucket; the region has a default. */
  function UploadConfigFromEnv(env: Env): (r: Option<UploadConfig>)
    ensures r.None? <==> "AWS_S3_BUCKET_NAME" !in env || env["AWS_S3_BUCKET_NAME"] == ""
    ensures r.Some? ==> r.value.bucketName == env["AWS_S3_BUCKET_NAME"] && r.value.bucketName != ""
    ensures r.Some? ==> r.value.region == EnvGet(env, "AWS_REGION", DefaultRegion)
  {
    var bucket := EnvGet(env, "AWS_S3_BUCKET_NAME", "");
    if bucket == "" then None
    else Some(UploadConfig(bucket, EnvGet(env, "AWS_REGION", DefaultRegion)))
  }

  /** The router looks for the file the export handler reads: the file names agree. */
  lemma FilenameInSyncWithExportHandler()
    ensures ExportConfigFilename == ExportConstants.ExportConfigFilename
  {
  }

  /** The two file names are relative, so each is joined under the work directory and never replaces it. */
  lemma NamesAreRelative()
    ensures !Text.StartsWith(ExportConfigFilename, "/") && !Text.StartsWith(TranscriptDirName, "/")
  {
    assert ExportConfigFilename[0] == 'e';
    assert TranscriptDirName[0] == '.';
  }

  /** Joined to the same directory, the two names give different paths. */
  lemma JoinedNamesDiffer(w: string)
    ensures PyJoin(w, ExportConfigFilename) != PyJoin(w, TranscriptDirName)
  {
    NamesAreRelative();
    var pre := if w == [] || w[|w| - 1] == '/' then w else w + "/";
    assert PyJoin(w, ExportConfigFilename) == pre + ExportConfigFilename;
    assert PyJoin(w, TranscriptDirName) == pre + TranscriptDirName;
    // The paths share the prefix the join put in front, then differ in their next character.
    assert (pre + ExportConfigFilename)[|pre|] == 'e';
    assert (pre + TranscriptDirName)[|pre|] == '.';
  }

  /**
   * Without `WORK_DIR` the paths are under `/work`; with a work directory not ending in a
   * separator, they are its two children. The two paths always differ.
   */
  lemma PathsUnderWorkDir(env: Env)
    ensures "WORK_DIR" !in env ==>
              FromEnv(env) == RouterPaths("/work/export_config.json", "/work/.transcripts")
    ensures "WORK_DIR" in env && env["WORK_DIR"] != [] && env["WORK_DIR"][|env["WORK_DIR"]| - 1] != '/' ==>
              FromEnv(env) == RouterPaths(env["WORK_DIR"] + "/export_config.json", env["WORK_DIR"] + "/.transcripts")
    ensures FromEnv(env).exportConfig != FromEnv(env).transcriptDir
  {
    NamesAreRelative();
    JoinedNamesDiffer(EnvGet(env, "WORK_DIR", DefaultWorkDir));
    if "WORK_DIR" !in env {
      assert DefaultWorkDir[|DefaultWorkDir| - 1] == 'k';
      assert DefaultWorkDir + "/" + ExportConfigFilename == "/work/export_config.json";
      assert DefaultWorkDir + "/" + TranscriptDirName == "/work/.transcripts";
    }
  }
}
