/**
 * The export handler's configuration: read from the environment through a schema
 * (defaults apply only to unset variables), and the file paths derived from it.
 */
module AppConfig {
  import opened Wrappers
  import opened Json
  import opened Schema
  import opened Errors
  import opened ExportConstants
  import Text

  /** The process environment: a variable is either unset or holds a string. */
  type Env = map<string, string>

  /** `path.join(dir, name)` for a directory and a plain file name. */
  function JoinPath(dir: string, name: string): string {
    Text.PathJoin(dir, name)
  }

  datatype Config = Config(
    workDir: string,
    tmpDir: string,
    linearApiKey: string,
    githubToken: Option<string>,
    linearApiUrl: Option<string>)

  datatype Paths = Paths(
    exportConfigPath: string,
    argoOutputPath: string,
    actionResultsOutputPath: string,
    zipOutputPath: string)

  /** `derivePaths`: the configuration file under the work directory, everything else under the temporary one. */
  function DerivePaths(config: Config): (r: Paths)
    ensures r.exportConfigPath == JoinPath(config.workDir, ExportConfigFilename)
    ensures r.argoOutputPath == JoinPath(config.tmpDir, ExportConfigFilename)
    ensures r.actionResultsOutputPath == JoinPath(config.tmpDir, ActionResultsFilename)
    ensures r.zipOutputPath == JoinPath(config.tmpDir, WorkspaceZipFilename)
  {
    Paths(JoinPath(config.workDir, ExportConfigFilename),
          JoinPath(config.tmpDir, ExportConfigFilename),
          JoinPath(config.tmpDir, ActionResultsFilename),
          JoinPath(config.tmpDir, WorkspaceZipFilename))
  }

  /** `env[name] || fallback`: an unset or empty variable gives the fallback. */
  function OrDefault(env: Env, name: string, fallback: string): (r: string)
    ensures name in env && env[name] != "" ==> r == env[name]
    ensures name !in env || env[name] == "" ==> r == fallback
  {
    if name in env && env[name] != "" then env[name] else fallback
  }

  /** `deriveFallbackArgoPaths`: the two configuration-file paths, from the raw environment. */
  function DeriveFallbackArgoPaths(env: Env): (r: (string, string))
    ensures r.0 == JoinPath(OrDefault(env, "WORK_DIR", DefaultWorkDir), ExportConfigFilename)
    ensures r.1 == JoinPath(OrDefault(env, "TMP_DIR", DefaultTmpDir), ExportConfigFilename)
  {
    (JoinPath(OrDefault(env, "WORK_DIR", DefaultWorkDir), ExportConfigFilename),
     JoinPath(OrDefault(env, "TMP_DIR", DefaultTmpDir), ExportConfigFilename))
  }

  /** An environment variable as the schema sees it. */
  function EnvValue(env: Env, name: string): Option<Json> {
    if name in env then Some(JStr(env[name])) else None
  }

  /**
   * `parseConfig`: `WORK_DIR` and `TMP_DIR` default when unset (an empty value is kept),
   * `LINEAR_API_KEY` must be set and non-empty, the two optional variables pass through.
   * A failing schema throws the library's error with its issues.
   */
  function ParseConfig(env: Env): Outcome<Config> {
    var workDir := DefaultedString(EnvValue(env, "WORK_DIR"), DefaultWorkDir, ["WORK_DIR"], Bounded(0, None));
    var tmpDir := DefaultedString(EnvValue(env, "TMP_DIR"), DefaultTmpDir, ["TMP_DIR"], Bounded(0, None));
    var key := RequiredString(EnvValue(env, "LINEAR_API_KEY"), ["LINEAR_API_KEY"],
                              StringRule(1, None, "LINEAR_API_KEY is required", ""));
    var token := OptionalString(EnvValue(env, "GITHUB_TOKEN"), ["GITHUB_TOKEN"], Bounded(0, None));
    var url := OptionalString(EnvValue(env, "LINEAR_API_URL"), ["LINEAR_API_URL"], Bounded(0, None));
    var issues := workDir.issues + tmpDir.issues + key.issues + token.issues + url.issues;
    if workDir.Parsed? && tmpDir.Parsed? && key.Parsed? && token.Parsed? && url.Parsed? && issues == [] then
      Returned(Config(workDir.value, tmpDir.value, key.value, token.value, url.value))
    else
      Threw(ZodError(issues))
  }

  /** The configuration is accepted exactly when the Linear API key is set and non-empty. */
  lemma ParseConfigSucceedsIff(env: Env)
    ensures ParseConfig(env).Returned? <==> "LINEAR_API_KEY" in env && env["LINEAR_API_KEY"] != ""
  {
  }

  /** An accepted configuration: defaults only for unset directories, the rest passed through. */
  lemma ParseConfigValues(env: Env)
    requires ParseConfig(env).Returned?
    ensures var c := ParseConfig(env).value;
            && c.workDir == (if "WORK_DIR" in env then env["WORK_DIR"] else DefaultWorkDir)
            && c.tmpDir == (if "TMP_DIR" in env then env["TMP_DIR"] else DefaultTmpDir)
            && c.linearApiKey == env["LINEAR_API_KEY"]
            && c.githubToken == (if "GITHUB_TOKEN" in env then Some(env["GITHUB_TOKEN"]) else None)
            && c.linearApiUrl == (if "LINEAR_API_URL" in env then Some(env["LINEAR_API_URL"]) else None)
  {
  }

  /** A missing key is reported as a missing value, an empty one with the schema's own message. */
  lemma ParseConfigRejection(env: Env)
    ensures "LINEAR_API_KEY" !in env ==> ParseConfig(env) == Threw(ZodError([TypeIssue(["LINEAR_API_KEY"])]))
    ensures "LINEAR_API_KEY" in env && env["LINEAR_API_KEY"] == "" ==>
              ParseConfig(env) == Threw(ZodError([Issue(TooSmall(1), ["LINEAR_API_KEY"], "LINEAR_API_KEY is required")]))
  {
    assert DefaultedString(EnvValue(env, "WORK_DIR"), DefaultWorkDir, ["WORK_DIR"], Bounded(0, None)).issues == [];
    assert DefaultedString(EnvValue(env, "TMP_DIR"), DefaultTmpDir, ["TMP_DIR"], Bounded(0, None)).issues == [];
    assert OptionalString(EnvValue(env, "GITHUB_TOKEN"), ["GITHUB_TOKEN"], Bounded(0, None)).issues == [];
    assert OptionalString(EnvValue(env, "LINEAR_API_URL"), ["LINEAR_API_URL"], Bounded(0, None)).issues == [];
    var key := RequiredString(EnvValue(env, "LINEAR_API_KEY"), ["LINEAR_API_KEY"],
                              StringRule(1, None, "LINEAR_API_KEY is required", ""));
    if "LINEAR_API_KEY" !in env {
      assert key.issues == [TypeIssue(["LINEAR_API_KEY"])];
      assert ParseConfig(env).Threw?;
      assert ParseConfig(env).error.issues == key.issues;
    } else if env["LINEAR_API_KEY"] == "" {
      assert key.issues == BoundIssues("", ["LINEAR_API_KEY"], StringRule(1, None, "LINEAR_API_KEY is required", ""));
      assert key.issues == [Issue(TooSmall(1), ["LINEAR_API_KEY"], "LINEAR_API_KEY is required")];
      assert ParseConfig(env).error.issues == key.issues;
    }
  }

  /**
   * Where the two readings of the environment differ: an empty `WORK_DIR` is kept by the
   * schema, so the configuration file is looked up by its bare, relative name, but it is
   * replaced by the default in the fallback paths.
   */
  lemma EmptyWorkDirReadings(env: Env)
    requires "WORK_DIR" in env && env["WORK_DIR"] == "" && ParseConfig(env).Returned?
    ensures ParseConfig(env).value.workDir == ""
    ensures DerivePaths(ParseConfig(env).value).exportConfigPath == ExportConfigFilename
    ensures DeriveFallbackArgoPaths(env).0 == JoinPath(DefaultWorkDir, ExportConfigFilename)
    ensures DerivePaths(ParseConfig(env).value).exportConfigPath != DeriveFallbackArgoPaths(env).0
  {
    var a := DerivePaths(ParseConfig(env).value).exportConfigPath;
    var b := DeriveFallbackArgoPaths(env).0;
    assert |a| < |b|;
  }
}
