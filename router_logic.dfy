/**
 * The router's decision: whether the agent loop runs another iteration. An export
 * configuration, once given, decides before the depth limit is looked at; only a
 * `continue` action continues, and it removes the configuration file first.
 */
module RouterLogic {
  import opened Wrappers
  import opened Json
  import Text
  import opened RouterConfig

  /** What Python raises here: a failed file operation, a value of the wrong type, or a storage client's error. */
  datatype PyError = OSError(path: string) | AttributeError(text: string) | TypeError(text: string) | ClientError(message: string)

  /** A request the router makes of the file system. */
  datatype FileCall = Remove(path: string) | Write(path: string, data: string)

  /** A Python computation that may raise, with the file requests it made. */
  datatype PyRun<+T> = PyRun(outcome: Result<T, PyError>, calls: seq<FileCall>)

  /**
   * `"continue" in actions`: an element of a list, a substring of a string, a key of an
   * object; other values cannot be searched and raise.
   */
  function ContainsContinue(actions: Json): (r: Result<bool, PyError>)
    ensures actions.JArr? ==> r == Ok(JStr("continue") in actions.items)
    ensures actions.JStr? ==> r == Ok(Text.Contains(actions.s, "continue"))
    ensures actions.JObj? ==> r == Ok(Get(actions, "continue").Some?)
    ensures r.Err? <==> actions.JNull? || actions.JBool? || actions.JNum?
  {
    match actions
    case JArr(items) => Ok(JStr("continue") in items)
    case JStr(s) => Ok(Text.Contains(s, "continue"))
    case JObj(_) => Ok(Get(actions, "continue").Some?)
    case _ => Err(TypeError("argument is not iterable"))
  }

  /** `export_data.get("actions", [])`. */
  function ConfiguredActions(data: Json): (r: Json)
    requires data.JObj?
    ensures Get(data, "actions").Some? ==> r == Get(data, "actions").value
    ensures Get(data, "actions").None? ==> r == JArr([])
  {
    if Get(data, "actions").Some? then Get(data, "actions").value else JArr([])
  }

  /** The reason given when the depth limit stops the loop. */
  function DepthLimitReason(depth: int, maxDepth: int): string {
    "depth limit (" + Text.IntToString(depth) + "/" + Text.IntToString(maxDepth) + ")"
  }

  /** The configuration text parsed: blank text is an empty object; `loads` is `json.loads`, `None` when it fails. */
  function ExportData(exportConfigJson: string, loads: string -> Option<Json>): Option<Json> {
    if Text.Trim(exportConfigJson, Text.IsPySpace) == [] then Some(JObj([])) else loads(exportConfigJson)
  }

  /**
   * `should_continue`. A failure to delete the configuration file is only logged; a non-empty
   * configuration that is not an object, or whose `actions` cannot be searched, raises.
   */
  function ShouldContinue(config: RouterPaths, exportConfigJson: string, depth: int, maxDepth: int,
                          loads: string -> Option<Json>): (r: PyRun<(bool, string)>)
    ensures ExportData(exportConfigJson, loads).None? ==> r == PyRun(Ok((false, "export_config provided (unparseable)")), [])
    ensures r.calls != [] ==> r.calls == [Remove(config.exportConfig)] && r.outcome == Ok((true, "continue action requested"))
  {
    match ExportData(exportConfigJson, loads)
    case None => PyRun(Ok((false, "export_config provided (unparseable)")), [])
    case Some(data) =>
      if PyTruthy(data) then
        if !data.JObj? then PyRun(Err(AttributeError("object has no attribute 'get'")), [])
        else
          match ContainsContinue(ConfiguredActions(data))
          case Err(e) => PyRun(Err(e), [])
          case Ok(true) => PyRun(Ok((true, "continue action requested")), [Remove(config.exportConfig)])
          case Ok(false) => PyRun(Ok((false, "export_config provided")), [])
      else NoConfigRun(depth, maxDepth)
  }

  /** The answer without a configuration: stop on the last allowed iteration, continue before it. */
  function NoConfigRun(depth: int, maxDepth: int): (r: PyRun<(bool, string)>)
    ensures r.calls == [] && r.outcome.Ok?
    ensures r.outcome.value.0 <==> depth < maxDepth - 1
    ensures depth >= maxDepth - 1 ==> r.outcome.value.1 == DepthLimitReason(depth, maxDepth)
    ensures depth < maxDepth - 1 ==> r.outcome.value.1 == "no export_config, continuing"
  {
    if depth >= maxDepth - 1 then PyRun(Ok((false, DepthLimitReason(depth, maxDepth))), [])
    else PyRun(Ok((true, "no export_config, continuing")), [])
  }

  /** A configuration with a `continue` action continues, whatever the depth, and its file is removed. */
  lemma ContinueActionWins(config: RouterPaths, text: string, depth: int, maxDepth: int, loads: string -> Option<Json>,
                           members: seq<(string, Json)>, items: seq<Json>)
    requires ExportData(text, loads) == Some(JObj(members))
    requires members != [] && Get(JObj(members), "actions") == Some(JArr(items)) && JStr("continue") in items
    ensures ShouldContinue(config, text, depth, maxDepth, loads)
         == PyRun(Ok((true, "continue action requested")), [Remove(config.exportConfig)])
  {
  }

  /**
   * A non-empty object decides by its `actions` (an empty list when absent), whatever the depth:
   * finding "continue" continues and removes the file, not finding it stops, and `actions` that
   * cannot be searched raise, with no file touched.
   */
  lemma ObjectConfigDecides(config: RouterPaths, text: string, depth: int, maxDepth: int, loads: string -> Option<Json>,
                            members: seq<(string, Json)>)
    requires ExportData(text, loads) == Some(JObj(members)) && members != []
    ensures var found := ContainsContinue(ConfiguredActions(JObj(members)));
            var r := ShouldContinue(config, text, depth, maxDepth, loads);
            && (found == Ok(true) ==> r == PyRun(Ok((true, "continue action requested")), [Remove(config.exportConfig)]))
            && (found == Ok(false) ==> r == PyRun(Ok((false, "export_config provided")), []))
            && (found.Err? ==> r == PyRun(Err(found.error), []))
  {
  }

  /**
   * Any other non-empty object stops the loop, whatever the depth: one whose `actions` list
   * lacks "continue" (`["report"]`, say), one with no `actions`, or one with an empty list.
   */
  lemma OtherConfigStops(config: RouterPaths, text: string, depth: int, maxDepth: int, loads: string -> Option<Json>,
                         members: seq<(string, Json)>, items: seq<Json>)
    requires ExportData(text, loads) == Some(JObj(members)) && members != []
    requires Get(JObj(members), "actions").None? || Get(JObj(members), "actions") == Some(JArr(items))
    requires JStr("continue") !in items
    ensures ShouldContinue(config, text, depth, maxDepth, loads) == PyRun(Ok((false, "export_config provided")), [])
  {
    ObjectConfigDecides(config, text, depth, maxDepth, loads, members);
  }

  /** `actions` given as null, a boolean or a number cannot be searched: the check raises, touching no file. */
  lemma UnsearchableActionsRaise(config: RouterPaths, text: string, depth: int, maxDepth: int, loads: string -> Option<Json>,
                                 members: seq<(string, Json)>, v: Json)
    requires ExportData(text, loads) == Some(JObj(members)) && members != []
    requires Get(JObj(members), "actions") == Some(v) && (v.JNull? || v.JBool? || v.JNum?)
    ensures var r := ShouldContinue(config, text, depth, maxDepth, loads);
            r.outcome.Err? && r.outcome.error.TypeError? && r.calls == []
  {
    ObjectConfigDecides(config, text, depth, maxDepth, loads, members);
  }

  /** A configuration Python reads as true that is not an object has no `get`: the check raises, touching no file. */
  lemma NonObjectConfigRaises(config: RouterPaths, text: string, depth: int, maxDepth: int, loads: string -> Option<Json>)
    requires ExportData(text, loads).Some? && PyTruthy(ExportData(text, loads).value)
    requires !ExportData(text, loads).value.JObj?
    ensures ShouldContinue(config, text, depth, maxDepth, loads) == PyRun(Err(AttributeError("object has no attribute 'get'")), [])
  {
  }

  /**
   * Without a configuration (blank text, an empty object, or any other value Python reads as
   * false), the loop stops exactly when this is the last allowed iteration.
   */
  lemma NoConfigDepthRule(config: RouterPaths, text: string, depth: int, maxDepth: int, loads: string -> Option<Json>)
    requires ExportData(text, loads).Some? && !PyTruthy(ExportData(text, loads).value)
    ensures var r := ShouldContinue(config, text, depth, maxDepth, loads);
            && r.calls == [] && r.outcome.Ok?
            && (r.outcome.value.0 <==> depth < maxDepth - 1)
            && (depth >= maxDepth - 1 ==> r.outcome.value.1 == DepthLimitReason(depth, maxDepth))
            && (depth < maxDepth - 1 ==> r.outcome.value.1 == "no export_config, continuing")
  {
    FalsyConfigAnswer(config, text, depth, maxDepth, loads);
    var r, n := ShouldContinue(config, text, depth, maxDepth, loads), NoConfigRun(depth, maxDepth);
    assert r == n;
    if depth >= maxDepth - 1 {
      assert r.outcome.value.1 == DepthLimitReason(depth, maxDepth);
    } else {
      assert r.outcome.value.1 == "no export_config, continuing";
    }
  }

  /** A parsed configuration that Python reads as false is answered by the depth rule alone. */
  lemma FalsyConfigAnswer(config: RouterPaths, text: string, depth: int, maxDepth: int, loads: string -> Option<Json>)
    requires ExportData(text, loads).Some? && !PyTruthy(ExportData(text, loads).value)
    ensures ShouldContinue(config, text, depth, maxDepth, loads) == NoConfigRun(depth, maxDepth)
  {
  }

  /** Blank text counts as no configuration at all, without being parsed. */
  lemma BlankIsNoConfig(text: string, loads: string -> Option<Json>)
    requires forall i :: 0 <= i < |text| ==> Text.IsPySpace(text[i])
    ensures ExportData(text, loads) == Some(JObj([]))
  {
    Text.TrimEmptyIff(text, Text.IsPySpace);
  }

  /**
   * The file system the router writes: a map from path to contents, which paths can be opened
   * for writing, and which can be removed (`os.remove` raises for the others).
   */
  datatype Files = Files(contents: map<string, string>, writable: string -> bool, removable: string -> bool)

  /** `write_output`: the file holds exactly the value and a newline, whatever it held before. */
  function WriteOutput(files: Files, value: string, outputPath: string): (r: PyRun<Files>)
    ensures r.calls == [Write(outputPath, value + "\n")]
    ensures r.outcome.Ok? <==> files.writable(outputPath)
    ensures r.outcome.Ok? ==> r.outcome.value.contents == files.contents[outputPath := value + "\n"]
    ensures r.outcome.Ok? ==> r.outcome.value.writable == files.writable
    ensures r.outcome.Err? ==> r.outcome.error == OSError(outputPath)
  {
    if files.writable(outputPath) then
      PyRun(Ok(files.(contents := files.contents[outputPath := value + "\n"])), [Write(outputPath, value + "\n")])
    else PyRun(Err(OSError(outputPath)), [Write(outputPath, value + "\n")])
  }
}
