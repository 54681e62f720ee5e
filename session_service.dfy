/**
 * The MCP server's session service: it reads the agent's last output file in the work
 * directory and takes the `session_id` from the JSON object on its first line. Any failure
 * along the way means "no session".
 */
module SessionService {
  import opened Wrappers
  import opened Json
  import Text
  import opened Errors

  const OutputFilename: string := "last_agent_output.json"

  /** The first line of the file's content, with JavaScript white space trimmed from both ends. */
  function FirstLineOf(content: string): string {
    Text.Trim(Text.FirstLine(content), Text.IsJsSpace)
  }

  /** `parsed?.session_id` when it is a string; anything but an object has no members. */
  function SessionIdOf(parsed: Json): (r: Option<string>)
    ensures r.Some? <==> Get(parsed, "session_id").Some? && Get(parsed, "session_id").value.JStr?
    ensures r.Some? ==> Get(parsed, "session_id") == Some(JStr(r.value))
  {
    match Get(parsed, "session_id")
    case Some(JStr(s)) => Some(s)
    case _ => None
  }

  class SessionService {
    const workDir: string
    const readFile: string -> Outcome<string>

    constructor(workDir: string, readFile: string -> Outcome<string>)
      ensures this.workDir == workDir && this.readFile == readFile
    {
      this.workDir := workDir;
      this.readFile := readFile;
    }

    function OutputPath(): string {
      Text.PathJoin(workDir, OutputFilename)
    }

    /**
     * `readSessionId`. `parse` is `JSON.parse`: `None` where it throws. A read failure, an
     * empty first line, a line that does not parse and a missing or non-string `session_id`
     * all give `None`.
     */
    function ReadSessionId(parse: string -> Option<Json>): (r: Option<string>)
      ensures readFile(OutputPath()).Threw? ==> r == None
      ensures r.Some? <==>
                && readFile(OutputPath()).Returned?
                && FirstLineOf(readFile(OutputPath()).value) != ""
                && parse(FirstLineOf(readFile(OutputPath()).value)).Some?
                && SessionIdOf(parse(FirstLineOf(readFile(OutputPath()).value)).value).Some?
      ensures r.Some? ==> r == SessionIdOf(parse(FirstLineOf(readFile(OutputPath()).value)).value)
    {
      match readFile(OutputPath())
      case Threw(_) => None
      case Returned(content) =>
        var line := FirstLineOf(content);
        if line == "" then None
        else match parse(line)
          case None => None
          case Some(parsed) => SessionIdOf(parsed)
    }
  }

  /** Only the first line is read: whatever follows the first line break is ignored. */
  lemma {:induction false} LaterLinesIgnored(line: string, rest: string)
    requires '\n' !in line
    ensures Text.FirstLine(line + "\n" + rest) == line
  {
    var s := line + "\n" + rest;
    assert s[..|line|] == line && s[|line|] == '\n';
    assert forall i :: 0 <= i < |line| ==> s[i] == line[i];
  }

  /** An output file whose content is blank (white space only) has no session. */
  lemma BlankContentHasNoSession(s: SessionService, parse: string -> Option<Json>)
    requires s.readFile(s.OutputPath()).Returned?
    requires forall i :: 0 <= i < |s.readFile(s.OutputPath()).value| ==> Text.IsJsSpace(s.readFile(s.OutputPath()).value[i])
    ensures s.ReadSessionId(parse) == None
  {
    var content := s.readFile(s.OutputPath()).value;
    var first := Text.FirstLine(content);
    assert forall i :: 0 <= i < |first| ==> first[i] == content[i];
    Text.TrimEmptyIff(first, Text.IsJsSpace);
  }
}
