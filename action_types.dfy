/** What every export action handler is given and what it returns. */
module ActionTypes {
  import opened Wrappers
  import opened ExportSchema
  import Text

  /** The handler dependencies that come from the environment rather than the configuration. */
  datatype ActionDeps = ActionDeps(workDir: string, zipOutputPath: string, githubToken: Option<string>)

  /** The context shared by all handlers of one export run; the Linear client is part of `Env`. */
  datatype ActionContext = ActionContext(
    issueId: Option<string>,
    config: ExportConfig,
    workDir: string,
    zipOutputPath: string,
    githubToken: Option<string>)

  /** A handler's result: string keys to string values. */
  type ActionResult = map<string, string>

  /** A usable Linear issue id for a handler: present, non-empty and not the sentinel `"none"`. */
  predicate HasValidIssue(issueId: Option<string>) {
    Truthy(issueId) && issueId.value != "none"
  }

  /** `path.resolve(base, p)`: an absolute `p` wins, a relative one is appended to `base`. */
  function Resolve(base: string, p: string): (r: string)
    ensures Text.StartsWith(p, "/") ==> r == p
    ensures !Text.StartsWith(p, "/") ==> r == base + "/" + p
  {
    if Text.StartsWith(p, "/") then p else base + "/" + p
  }
}
