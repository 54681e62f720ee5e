/**
 * The outside world of the export handler, seen as deterministic oracles: the Linear
 * client, synchronous command execution, the file system's existence test, the workspace
 * archiver, the file upload and the clock. Every call the handler makes is recorded, in
 * order, so that ordering and fail-fast behaviour become statements about the record.
 */
module Collaborators {
  import opened Wrappers
  import opened Errors
  import opened ExportConstants

  /**
   * A synchronous child process: program, arguments, working directory (the caller's when
   * absent) and the `GH_TOKEN` added to the inherited environment (none when absent).
   */
  datatype Command = Command(file: string, args: seq<string>, cwd: Option<string>, ghToken: Option<string>)

  datatype Env = Env(
    /** `client.createComment({issueId, body})`: the payload's `success` flag, or a throw. */
    createComment: (string, string) -> Outcome<bool>,
    /** `execFileSync`: the standard output, or a throw (non-zero exit, missing program). */
    exec: Command -> Outcome<string>,
    /** `existsSync(path)`. */
    pathExists: string -> bool,
    /** `createWorkspaceZip(workDir, zipOutputPath)`: the archive's size in bytes, or a throw. */
    zip: (string, string) -> Outcome<nat>,
    /** `uploadToLinear` of an archive of the given name and size: the asset address, or a throw. */
    upload: (string, nat) -> Outcome<string>,
    /** `Date.now()` at the time of the upload, in milliseconds. */
    nowMs: nat)

  /** One observable step, in the order it happens. */
  datatype Call =
    | CreateComment(issueId: string, body: string)
    | Exec(command: Command)
    | Exists(path: string)
    | Zip(workDir: string, zipOutputPath: string)
    | Upload(filename: string, size: nat)
    | ValidateCall(action: Action)
    | ExecuteCall(action: Action)

  /** A call to the outside world, as opposed to the orchestrator's validate and execute markers. */
  predicate IsServiceCall(c: Call) {
    !c.ValidateCall? && !c.ExecuteCall?
  }

  /** An effectful computation's outcome together with the calls it made. */
  datatype Run<+T> = Run(outcome: Outcome<T>, calls: seq<Call>)

  /** The record of running each command of `commands`, in order. */
  function Execs(commands: seq<Command>): (r: seq<Call>)
    ensures |r| == |commands|
    ensures forall i :: 0 <= i < |commands| ==> r[i] == Exec(commands[i])
  {
    if commands == [] then [] else [Exec(commands[0])] + Execs(commands[1..])
  }

  /** The index of the first command of `commands` that throws, if any. */
  function FirstThrow(env: Env, commands: seq<Command>): (r: Option<nat>)
    ensures r.None? <==> forall i :: 0 <= i < |commands| ==> env.exec(commands[i]).Returned?
    ensures r.Some? ==> r.value < |commands| && env.exec(commands[r.value]).Threw?
                        && forall i :: 0 <= i < r.value ==> env.exec(commands[i]).Returned?
  {
    if commands == [] then None
    else if env.exec(commands[0]).Threw? then Some(0)
    else
      match FirstThrow(env, commands[1..])
      case None => None
      case Some(k) => Some(k + 1)
  }

  /** Running `commands` in order, stopping at the first one that throws and rethrowing its error. */
  function RunAll(env: Env, commands: seq<Command>): (r: Run<()>)
    ensures FirstThrow(env, commands).None? ==> r == Run(Returned(()), Execs(commands))
    ensures FirstThrow(env, commands).Some? ==>
              var k := FirstThrow(env, commands).value;
              r == Run(Threw(env.exec(commands[k]).error), Execs(commands[..k + 1]))
    ensures forall i :: 0 <= i < |r.calls| ==> r.calls[i].Exec?
  {
    if commands == [] then Run(Returned(()), [])
    else
      match env.exec(commands[0])
      case Threw(e) =>
        assert Execs(commands[..1]) == [Exec(commands[0])];
        Run(Threw(e), [Exec(commands[0])])
      case Returned(_) =>
        var rest := RunAll(env, commands[1..]);
        assert FirstThrow(env, commands[1..]).Some? ==>
                 commands[..FirstThrow(env, commands[1..]).value + 2]
                 == [commands[0]] + commands[1..][..FirstThrow(env, commands[1..]).value + 1];
        Run(rest.outcome, [Exec(commands[0])] + rest.calls)
  }
}
