/**
 * Uploading the agent's session transcripts to object storage: every `.jsonl` file in the
 * transcript directory is a main transcript, keyed by its session id, and every `.jsonl`
 * file in `<session id>/subagents` beside it is uploaded under that session's prefix.
 */
module TranscriptUpload {
  import opened Wrappers
  import Text
  import opened RouterConfig
  import opened RouterLogic

  type Bytes = seq<bv8>

  const ContentType: string := "application/jsonl"
  const Extension: string := ".jsonl"

  /** What the upload can see and do: the directory tree, file reads and the storage client. */
  datatype Storage = Storage(
    isDir: string -> bool,
    listDir: string -> seq<string>,
    readFile: string -> Result<Bytes, PyError>,
    putObject: (string, string, Bytes, string) -> Result<(), PyError>)

  /** A request the upload makes. */
  datatype UploadCall = ReadFile(path: string) | PutObject(bucket: string, key: string, contentType: string)

  /** `UploadEntry`: the storage key and the local file. */
  datatype UploadEntry = UploadEntry(key: string, filePath: string)

  // ---- Names -----------------------------------------------------------------------------

  /** The position of the last `c` in `s`, if any. */
  function LastIndexOf(s: string, c: char): (r: Option<nat>)
    ensures r.None? <==> c !in s
    ensures r.Some? ==> r.value < |s| && s[r.value] == c && forall i :: r.value < i < |s| ==> s[i] != c
  {
    if s == [] then None
    else if s[|s| - 1] == c then Some(|s| - 1)
    else LastIndexOf(s[..|s| - 1], c)
  }

  /** `os.path.basename`: what follows the last separator. */
  function Basename(path: string): (r: string)
    ensures '/' !in r
  {
    match LastIndexOf(path, '/')
    case None => path
    case Some(i) => path[i + 1..]
  }

  /** The name contains a character other than a dot before position `end`. */
  predicate HasNonDotBefore(name: string, end: nat)
    requires end <= |name|
  {
    exists i :: 0 <= i < end && name[i] != '.'
  }

  /**
   * `os.path.splitext(name)[0]` for a name without separators: cut at the last dot, unless
   * everything before that dot is dots (a leading-dot name has no extension).
   */
  function SplitextRoot(name: string): (r: string)
  {
    match LastIndexOf(name, '.')
    case None => name
    case Some(d) => if HasNonDotBefore(name, d) then name[..d] else name
  }

  /** A main transcript's name: ends in `.jsonl` and is not `.jsonl` itself. */
  predicate IsMainTranscript(name: string) {
    Text.EndsWith(name, Extension) && name != Extension
  }

  /** The joined paths of the main transcripts among `names`, in listing order. */
  function KeptFiles(dir: string, names: seq<string>): (r: seq<string>)
    ensures |r| <= |names|
  {
    if names == [] then []
    else KeptFiles(dir, names[..|names| - 1]) + (if IsMainTranscript(names[|names| - 1]) then [PyJoin(dir, names[|names| - 1])] else [])
  }

  /** `_find_transcript_files`: nothing for a missing directory. */
  function FindTranscriptFiles(dir: string, st: Storage): (r: seq<string>)
    ensures !st.isDir(dir) ==> r == []
    ensures st.isDir(dir) ==> r == KeptFiles(dir, st.listDir(dir))
  {
    if !st.isDir(dir) then [] else KeptFiles(dir, st.listDir(dir))
  }

  /** A path is kept exactly when it joins the directory with a listed main-transcript name. */
  lemma {:induction false} KeptFilesIff(dir: string, names: seq<string>, path: string)
    ensures path in KeptFiles(dir, names) <==> exists k :: 0 <= k < |names| && IsMainTranscript(names[k]) && path == PyJoin(dir, names[k])
  {
    if names != [] {
      var init := names[..|names| - 1];
      KeptFilesIff(dir, init, path);
      if exists k :: 0 <= k < |names| && IsMainTranscript(names[k]) && path == PyJoin(dir, names[k]) {
        var k :| 0 <= k < |names| && IsMainTranscript(names[k]) && path == PyJoin(dir, names[k]);
        if k < |names| - 1 {
          assert init[k] == names[k];
        }
      }
      if exists k :: 0 <= k < |init| && IsMainTranscript(init[k]) && path == PyJoin(dir, init[k]) {
        var k :| 0 <= k < |init| && IsMainTranscript(init[k]) && path == PyJoin(dir, init[k]);
        assert names[k] == init[k];
      }
    }
  }

  // ---- Collecting the uploads ------------------------------------------------------------

  /** A session's subagent transcripts among `names`, keyed `<session id>/<name>`. Unlike main transcripts, `.jsonl` itself counts. */
  function SubagentEntries(sessionId: string, subDir: string, names: seq<string>): (r: seq<UploadEntry>)
    ensures |r| <= |names|
  {
    if names == [] then []
    else
      var last := names[|names| - 1];
      SubagentEntries(sessionId, subDir, names[..|names| - 1])
      + (if Text.EndsWith(last, Extension) then [UploadEntry(sessionId + "/" + last, PyJoin(subDir, last))] else [])
  }

  function SessionIdOf(file: string): string {
    SplitextRoot(Basename(file))
  }

  function SubagentDir(dir: string, sessionId: string): string {
    PyJoin(PyJoin(dir, sessionId), "subagents")
  }

  /** The entries one main transcript contributes: itself first, then its subagents' transcripts. */
  function EntriesFor(dir: string, file: string, st: Storage): (r: seq<UploadEntry>)
    ensures |r| >= 1 && r[0] == UploadEntry(SessionIdOf(file) + Extension, file)
  {
    var sid := SessionIdOf(file);
    var subDir := SubagentDir(dir, sid);
    [UploadEntry(sid + Extension, file)]
    + (if st.isDir(subDir) then SubagentEntries(sid, subDir, st.listDir(subDir)) else [])
  }

  /** All the entries, transcript by transcript. */
  function AllEntries(dir: string, files: seq<string>, st: Storage): seq<UploadEntry>
  {
    if files == [] then []
    else AllEntries(dir, files[..|files| - 1], st) + EntriesFor(dir, files[|files| - 1], st)
  }

  /** The inner loop of `_collect_uploads`: the subagent transcripts of one session. */
  method CollectSubagents(sessionId: string, subDir: string, names: seq<string>) returns (entries: seq<UploadEntry>)
    ensures entries == SubagentEntries(sessionId, subDir, names)
  {
    entries := [];
    var j := 0;
    while j < |names|
      invariant 0 <= j <= |names|
      invariant entries == SubagentEntries(sessionId, subDir, names[..j])
    {
      if Text.EndsWith(names[j], Extension) {
        entries := entries + [UploadEntry(sessionId + "/" + names[j], PyJoin(subDir, names[j]))];
      }
      assert names[..j + 1][..j] == names[..j];
      j := j + 1;
    }
    assert names[..j] == names;
  }

  /** One more transcript adds its own entries at the end. */
  lemma AllEntriesSnoc(dir: string, files: seq<string>, i: nat, st: Storage)
    requires i < |files|
    ensures AllEntries(dir, files[..i + 1], st) == AllEntries(dir, files[..i], st) + EntriesFor(dir, files[i], st)
  {
    assert files[..i + 1][..i] == files[..i];
  }

  /** `_collect_uploads`. */
  method CollectUploads(dir: string, files: seq<string>, st: Storage) returns (uploads: seq<UploadEntry>)
    ensures uploads == AllEntries(dir, files, st)
  {
    uploads := [];
    var i := 0;
    while i < |files|
      invariant 0 <= i <= |files|
      invariant uploads == AllEntries(dir, files[..i], st)
    {
      var file := files[i];
      var sid := SplitextRoot(Basename(file));
      var entries := [UploadEntry(sid + Extension, file)];
      var subDir := PyJoin(PyJoin(dir, sid), "subagents");
      if st.isDir(subDir) {
        var subs := CollectSubagents(sid, subDir, st.listDir(subDir));
        entries := entries + subs;
      }
      assert entries == EntriesFor(dir, file, st);
      uploads := uploads + entries;
      AllEntriesSnoc(dir, files, i, st);
      i := i + 1;
    }
    assert files[..i] == files;
  }

  /** Every subagent transcript is keyed under its session: `<session id>/<name>`, with a `.jsonl` name. */
  lemma {:induction false} SubagentKeysUnderSession(sessionId: string, subDir: string, names: seq<string>, k: nat)
    requires k < |SubagentEntries(sessionId, subDir, names)|
    ensures exists n :: n in names && Text.EndsWith(n, Extension)
              && SubagentEntries(sessionId, subDir, names)[k] == UploadEntry(sessionId + "/" + n, PyJoin(subDir, n))
  {
    var init := names[..|names| - 1];
    var last := names[|names| - 1];
    var before := SubagentEntries(sessionId, subDir, init);
    if k < |before| {
      SubagentKeysUnderSession(sessionId, subDir, init, k);
      var n :| n in init && Text.EndsWith(n, Extension)
                && before[k] == UploadEntry(sessionId + "/" + n, PyJoin(subDir, n));
      assert n in names;
    } else {
      assert last in names;
    }
  }

  /** Conversely, every listed `.jsonl` name gets its entry `<session id>/<name>`. */
  lemma {:induction false} SubagentNamesAllKeyed(sessionId: string, subDir: string, names: seq<string>, n: string)
    requires n in names && Text.EndsWith(n, Extension)
    ensures UploadEntry(sessionId + "/" + n, PyJoin(subDir, n)) in SubagentEntries(sessionId, subDir, names)
  {
    var init := names[..|names| - 1];
    var last := names[|names| - 1];
    assert names == init + [last];
    if n != last {
      assert n in init;
      SubagentNamesAllKeyed(sessionId, subDir, init, n);
    }
  }

  /**
   * The main transcript `<session id>.jsonl` is keyed by its session id: the name without the
   * extension, when that is not made of dots only.
   */
  lemma MainKeyIsSessionId(dir: string, sessionId: string, st: Storage)
    requires '/' !in sessionId && sessionId != [] && !Text.StartsWith(sessionId, "/")
    requires exists i :: 0 <= i < |sessionId| && sessionId[i] != '.'
    requires dir != [] && dir[|dir| - 1] != '/'
    ensures SessionIdOf(PyJoin(dir, sessionId + Extension)) == sessionId
    ensures EntriesFor(dir, PyJoin(dir, sessionId + Extension), st)[0].key == sessionId + ".jsonl"
  {
    var name := sessionId + Extension;
    var path := dir + "/" + name;
    assert !Text.StartsWith(name, "/") by { assert name[0] == sessionId[0]; }
    assert PyJoin(dir, name) == path;
    assert LastIndexOf(path, '/') == Some(|dir|) by {
      assert path[|dir|] == '/';
      forall i | |dir| < i < |path| ensures path[i] != '/' {
        assert path[i] == name[i - |dir| - 1];
        if i - |dir| - 1 < |sessionId| {
          assert name[i - |dir| - 1] == sessionId[i - |dir| - 1];
        } else {
          assert name[i - |dir| - 1] == Extension[i - |dir| - 1 - |sessionId|];
        }
      }
    }
    assert path[|dir| + 1..] == name;
    assert LastIndexOf(name, '.') == Some(|sessionId|) by {
      assert name[|sessionId|] == '.';
      forall i | |sessionId| < i < |name| ensures name[i] != '.' {
        assert name[i] == Extension[i - |sessionId|];
      }
    }
    var k :| 0 <= k < |sessionId| && sessionId[k] != '.';
    assert name[k] == sessionId[k];
    assert HasNonDotBefore(name, |sessionId|);
    assert name[..|sessionId|] == sessionId;
  }

  // ---- Uploading -------------------------------------------------------------------------

  /** One entry: read the file, then put it; a failed read puts nothing. */
  function UploadOne(bucket: string, e: UploadEntry, st: Storage): (r: (Result<(), PyError>, seq<UploadCall>))
    ensures st.readFile(e.filePath).Err? ==> r == (Err(st.readFile(e.filePath).error), [ReadFile(e.filePath)])
    ensures st.readFile(e.filePath).Ok? ==>
              r == (st.putObject(bucket, e.key, st.readFile(e.filePath).value, ContentType),
                    [ReadFile(e.filePath), PutObject(bucket, e.key, ContentType)])
  {
    match st.readFile(e.filePath)
    case Err(err) => (Err(err), [ReadFile(e.filePath)])
    case Ok(body) => (st.putObject(bucket, e.key, body, ContentType), [ReadFile(e.filePath), PutObject(bucket, e.key, ContentType)])
  }

  /** The requests of uploading every entry: each is attempted whatever happened to the others. */
  function UploadTrace(bucket: string, entries: seq<UploadEntry>, st: Storage): seq<UploadCall> {
    if entries == [] then []
    else UploadTrace(bucket, entries[..|entries| - 1], st) + UploadOne(bucket, entries[|entries| - 1], st).1
  }

  /** The first failure, in list order. */
  function FirstFailure(bucket: string, entries: seq<UploadEntry>, st: Storage): (r: Option<PyError>)
    ensures r.None? <==> forall k :: 0 <= k < |entries| ==> UploadOne(bucket, entries[k], st).0.Ok?
  {
    if entries == [] then None
    else
      var init := entries[..|entries| - 1];
      var earlier := FirstFailure(bucket, init, st);
      assert forall k :: 0 <= k < |init| ==> init[k] == entries[k];
      if earlier.Some? then earlier
      else
        var last := UploadOne(bucket, entries[|entries| - 1], st).0;
        if last.Err? then Some(last.error) else None
  }

  /** Every entry, in list order (the worker pool of five is not modelled); the first failure is raised once all have run. */
  method UploadAll(bucket: string, entries: seq<UploadEntry>, st: Storage) returns (failure: Option<PyError>, calls: seq<UploadCall>)
    ensures failure == FirstFailure(bucket, entries, st)
    ensures calls == UploadTrace(bucket, entries, st)
  {
    failure, calls := None, [];
    var i := 0;
    while i < |entries|
      invariant 0 <= i <= |entries|
      invariant failure == FirstFailure(bucket, entries[..i], st)
      invariant calls == UploadTrace(bucket, entries[..i], st)
    {
      var body := st.readFile(entries[i].filePath);
      var result: Result<(), PyError>;
      if body.Err? {
        result := Err(body.error);
        calls := calls + [ReadFile(entries[i].filePath)];
      } else {
        result := st.putObject(bucket, entries[i].key, body.value, ContentType);
        calls := calls + [ReadFile(entries[i].filePath), PutObject(bucket, entries[i].key, ContentType)];
      }
      if failure.None? && result.Err? {
        failure := Some(result.error);
      }
      assert entries[..i + 1][..i] == entries[..i];
      i := i + 1;
    }
    assert entries[..i] == entries;
  }

  /** `upload_transcripts`: nothing to do without transcripts; otherwise every entry is uploaded and counted. */
  method UploadTranscripts(dir: string, config: UploadConfig, st: Storage) returns (r: Result<nat, PyError>, calls: seq<UploadCall>)
    ensures FindTranscriptFiles(dir, st) == [] ==> r == Ok(0) && calls == []
    ensures FindTranscriptFiles(dir, st) != [] ==>
              var entries := AllEntries(dir, FindTranscriptFiles(dir, st), st);
              && calls == UploadTrace(config.bucketName, entries, st)
              && (r.Ok? <==> FirstFailure(config.bucketName, entries, st).None?)
              && (r.Ok? ==> r.value == |entries|)
              && (r.Err? ==> r.error == FirstFailure(config.bucketName, entries, st).value)
  {
    var files := FindTranscriptFiles(dir, st);
    if files == [] {
      return Ok(0), [];
    }
    var uploads := CollectUploads(dir, files, st);
    var failure;
    failure, calls := UploadAll(config.bucketName, uploads, st);
    if failure.Some? {
      r := Err(failure.value);
    } else {
      r := Ok(|uploads|);
    }
  }

  /** Every entry is attempted: the trace holds a read of each entry's file, in list order. */
  lemma {:induction false} EveryEntryAttempted(bucket: string, entries: seq<UploadEntry>, st: Storage)
    ensures |UploadTrace(bucket, entries, st)| >= |entries|
    ensures forall k :: 0 <= k < |entries| ==> ReadFile(entries[k].filePath) in UploadTrace(bucket, entries, st)
  {
    if entries != [] {
      var init := entries[..|entries| - 1];
      EveryEntryAttempted(bucket, init, st);
      forall k | 0 <= k < |entries| ensures ReadFile(entries[k].filePath) in UploadTrace(bucket, entries, st) {
        if k < |init| {
          assert init[k] == entries[k];
        } else {
          assert UploadOne(bucket, entries[k], st).1[0] == ReadFile(entries[k].filePath);
        }
      }
    }
  }

  /** Every successful put carries the bucket, the entry's key and the JSON-lines content type. */
  lemma {:induction false} PutsCarryKeyAndType(bucket: string, entries: seq<UploadEntry>, st: Storage, c: UploadCall)
    requires c in UploadTrace(bucket, entries, st) && c.PutObject?
    ensures c.bucket == bucket && c.contentType == "application/jsonl"
    ensures exists k :: 0 <= k < |entries| && c.key == entries[k].key
  {
    var init := entries[..|entries| - 1];
    if c in UploadTrace(bucket, init, st) {
      PutsCarryKeyAndType(bucket, init, st, c);
      var k :| 0 <= k < |init| && c.key == init[k].key;
      assert entries[k] == init[k];
    }
  }
}
