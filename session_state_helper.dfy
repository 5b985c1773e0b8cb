/**
 * The state writer (hooks/session-state-helper.rb): a hook command and the
 * hook's JSON payload become a session record in the shared sessions
 * directory, or the removal of one.
 *
 * The directory is a map from file name to the record the file holds; the
 * environment, the working directory and the clock are passed in as `Env`,
 * and what `JSON.parse` made of standard input is passed in as a
 * `ParseOutcome`.
 */
module SessionStateHelper {
  import opened Basics

  /** The hook payload: a JSON object whose fields are strings (a JSON null reads as an absent key). */
  type HookData = map<string, string>

  /** What `JSON.parse` returned for a non-empty standard input. */
  datatype ParseOutcome = ParseError | ParsedNull | ParsedObject(data: HookData)

  /** The environment variables, `Dir.pwd` and `Time.now.to_i` seen by one invocation. */
  datatype Env = Env(vars: map<string, string>, workingDir: string, now: int)

  datatype State = Waiting | Working | Ready

  /** The string the record's `state` field holds. */
  function StateName(s: State): (name: string)
    ensures name == "waiting" <==> s == Waiting
    ensures name == "working" <==> s == Working
    ensures name == "ready" <==> s == Ready
  {
    match s
    case Waiting => "waiting"
    case Working => "working"
    case Ready => "ready"
  }

  /** The record's `metadata` object; a `None` value is written as JSON null. */
  type Metadata = map<string, Option<string>>

  /** The JSON object written to `<session_id>.json`. */
  datatype Record = Record(sessionId: string, state: State, timestamp: int, pwd: string, metadata: Metadata)

  /** The sessions directory: file name to the record that file holds. */
  type Directory = map<string, Record>

  /** The failures that make the script print to standard error and exit with status 1. */
  datatype Error = InvalidJson | NoInputData | MissingSessionId | UnknownCommand(command: Option<string>)

  datatype HookCommand = StartCmd | StopCmd | WaitingCmd | WorkingCmd | EndCmd

  /** The `case command` of the main block: the five recognised first arguments. */
  function ParseCommand(arg: Option<string>): (c: Option<HookCommand>)
    ensures c == Some(StartCmd) <==> arg == Some("start")
    ensures c == Some(StopCmd) <==> arg == Some("stop")
    ensures c == Some(WaitingCmd) <==> arg == Some("waiting")
    ensures c == Some(WorkingCmd) <==> arg == Some("working")
    ensures c == Some(EndCmd) <==> arg == Some("end")
  {
    match arg
    case Some("start") => Some(StartCmd)
    case Some("stop") => Some(StopCmd)
    case Some("waiting") => Some(WaitingCmd)
    case Some("working") => Some(WorkingCmd)
    case Some("end") => Some(EndCmd)
    case _ => None
  }

  /**
   * `read_hook_input`: an empty standard input gives nil, unparsable JSON is
   * an error, otherwise the parsed value (nil for a JSON null).
   */
  function ReadHookInput(input: string, parsed: ParseOutcome): (r: Result<Option<HookData>, Error>)
    ensures r.Err? <==> input != "" && parsed == ParseError
    ensures r.Err? ==> r.error == InvalidJson
    ensures r == Ok(None) <==> input == "" || parsed == ParsedNull
    ensures r.Ok? && r.value.Some? ==> parsed == ParsedObject(r.value.value)
  {
    if input == "" then Ok(None)
    else match parsed
      case ParseError => Err(InvalidJson)
      case ParsedNull => Ok(None)
      case ParsedObject(data) => Ok(Some(data))
  }

  /** `session_file`: the name of the session's file inside the sessions directory. */
  function SessionFile(sessionId: string): (name: string)
    ensures |name| == |sessionId| + 5
    ensures name[..|sessionId|] == sessionId && name[|sessionId|..] == ".json"
  {
    sessionId + ".json"
  }

  /** Distinct sessions never share a file. */
  lemma SessionFileInjective(a: string, b: string)
    requires SessionFile(a) == SessionFile(b)
    ensures a == b
  {
    assert |a| == |b|;
    assert a == SessionFile(a)[..|a|];
  }

  predicate ValidSessionId(hook: HookData)
  {
    "session_id" in hook && hook["session_id"] != ""
  }

  /** The `session_id` check shared by `update_session_state` and `remove_session_state`. */
  function SessionId(hook: HookData): (r: Result<string, Error>)
    ensures r.Ok? <==> ValidSessionId(hook)
    ensures r.Ok? ==> r.value == hook["session_id"] && r.value != ""
    ensures r.Err? ==> r.error == MissingSessionId
  {
    if "session_id" in hook && hook["session_id"] != "" then Ok(hook["session_id"])
    else Err(MissingSessionId)
  }

  const BaseKeys: set<string> := {"cwd", "transcript_path", "permission_mode", "project_dir"}

  /** The fixed metadata envelope every written record carries. */
  function BaseMetadata(hook: HookData, env: Env): (m: Metadata)
    ensures m.Keys == BaseKeys
    ensures m["cwd"] == Lookup(hook, "cwd")
    ensures m["transcript_path"] == Lookup(hook, "transcript_path")
    ensures m["permission_mode"] == Lookup(hook, "permission_mode")
    ensures m["project_dir"] == Lookup(env.vars, "CLAUDE_PROJECT_DIR")
  {
    map["cwd" := Lookup(hook, "cwd"),
        "transcript_path" := Lookup(hook, "transcript_path"),
        "permission_mode" := Lookup(hook, "permission_mode"),
        "project_dir" := Lookup(env.vars, "CLAUDE_PROJECT_DIR")]
  }

  /** `Hash#merge`: every key of either map, the value of `extra` winning on a clash. */
  function Merge(base: Metadata, extra: Metadata): (m: Metadata)
    ensures m.Keys == base.Keys + extra.Keys
    ensures forall k :: k in extra ==> m[k] == extra[k]
    ensures forall k :: k in base && k !in extra ==> m[k] == base[k]
  {
    base + extra
  }

  /** The record's `pwd`: the payload's `cwd`, else `$PWD`, else `Dir.pwd`. */
  function Pwd(hook: HookData, env: Env): (pwd: string)
    ensures "cwd" in hook ==> pwd == hook["cwd"]
    ensures "cwd" !in hook && "PWD" in env.vars ==> pwd == env.vars["PWD"]
    ensures "cwd" !in hook && "PWD" !in env.vars ==> pwd == env.workingDir
  {
    OrElse(Lookup(hook, "cwd"), OrElse(Lookup(env.vars, "PWD"), env.workingDir))
  }

  /** The `data` hash of `update_session_state`. */
  function BuildRecord(sessionId: string, hook: HookData, state: State, extra: Metadata, env: Env): (r: Record)
    ensures r.sessionId == sessionId && r.state == state && r.timestamp == env.now
    ensures r.pwd == Pwd(hook, env)
    ensures r.metadata.Keys == BaseKeys + extra.Keys
    ensures forall k :: k in extra ==> r.metadata[k] == extra[k]
    ensures forall k :: k in BaseKeys && k !in extra ==> r.metadata[k] == BaseMetadata(hook, env)[k]
  {
    Record(sessionId, state, env.now, Pwd(hook, env), Merge(BaseMetadata(hook, env), extra))
  }

  /**
   * `update_session_state` on the directory: a missing or empty session id
   * is an error; otherwise the session's file is overwritten with the new
   * record and no other file changes.
   */
  function Update(dir: Directory, hook: HookData, state: State, extra: Metadata, env: Env): (r: Result<Directory, Error>)
    ensures r.Err? <==> !ValidSessionId(hook)
    ensures r.Err? ==> r.error == MissingSessionId
    ensures r.Ok? ==> var f := SessionFile(hook["session_id"]);
      && r.value.Keys == dir.Keys + {f}
      && r.value[f] == BuildRecord(hook["session_id"], hook, state, extra, env)
      && forall k :: k in dir && k != f ==> r.value[k] == dir[k]
  {
    match SessionId(hook)
    case Err(e) => Err(e)
    case Ok(id) => Ok(dir[SessionFile(id) := BuildRecord(id, hook, state, extra, env)])
  }

  /**
   * `remove_session_state` on the directory: a missing or empty session id
   * is an error; otherwise the session's file is deleted if it exists.
   */
  function Remove(dir: Directory, hook: HookData): (r: Result<Directory, Error>)
    ensures r.Err? <==> !ValidSessionId(hook)
    ensures r.Err? ==> r.error == MissingSessionId
    ensures r.Ok? ==> r.value.Keys == dir.Keys - {SessionFile(hook["session_id"])}
    ensures r.Ok? ==> forall k :: k in r.value ==> r.value[k] == dir[k]
  {
    match SessionId(hook)
    case Err(e) => Err(e)
    case Ok(id) => Ok(dir - {SessionFile(id)})
  }

  /** The state and the event-specific metadata each writing command passes to `update_session_state`. */
  function CommandUpdate(cmd: HookCommand, hook: HookData): (u: (State, Metadata))
    requires cmd != EndCmd
    ensures u.0 == Ready <==> cmd == StopCmd
    ensures u.0 == Working <==> cmd == WorkingCmd
    ensures u.1.Keys * BaseKeys == {} && "project" !in u.1
  {
    match cmd
    case StartCmd => (Waiting, map["source" := Some(OrElse(Lookup(hook, "source"), "unknown"))])
    case StopCmd => (Ready, map[])
    case WaitingCmd => (Waiting, map["notification_type" := Lookup(hook, "notification_type"),
                                     "message" := Lookup(hook, "message")])
    case WorkingCmd => (Working, map["prompt" := Lookup(hook, "prompt")])
  }

  /** The main block after `mkdir_p`: read the payload, then dispatch on the command. */
  function Dispatch(command: Option<string>, input: string, parsed: ParseOutcome, env: Env, dir: Directory)
    : (r: Result<Directory, Error>)
    ensures r.Ok? <==>
      input != "" && parsed.ParsedObject? && ParseCommand(command).Some? && ValidSessionId(parsed.data)
    ensures input == "" ==> r == Err(NoInputData)
    ensures input != "" && parsed == ParseError ==> r == Err(InvalidJson)
    ensures input != "" && parsed.ParsedObject? && ParseCommand(command).None? ==> r == Err(UnknownCommand(command))
  {
    match ReadHookInput(input, parsed)
    case Err(e) => Err(e)
    case Ok(None) => Err(NoInputData)
    case Ok(Some(hook)) =>
      match ParseCommand(command)
      case None => Err(UnknownCommand(command))
      case Some(EndCmd) => Remove(dir, hook)
      case Some(cmd) =>
        var (state, extra) := CommandUpdate(cmd, hook);
        Update(dir, hook, state, extra, env)
  }

  /** A payload that was read and parsed into the JSON object `hook`. */
  predicate Delivered(input: string, parsed: ParseOutcome, hook: HookData)
  {
    input != "" && parsed == ParsedObject(hook)
  }

  /** `start` writes state `waiting` and adds `source`, defaulting to "unknown". */
  lemma StartWritesWaiting(input: string, parsed: ParseOutcome, hook: HookData, env: Env, dir: Directory)
    requires Delivered(input, parsed, hook) && ValidSessionId(hook)
    ensures var r := Dispatch(Some("start"), input, parsed, env, dir);
      var f := SessionFile(hook["session_id"]);
      && r.Ok? && f in r.value
      && r.value[f].state == Waiting
      && r.value[f].metadata.Keys == BaseKeys + {"source"}
      && r.value[f].metadata["source"] == Some(if "source" in hook then hook["source"] else "unknown")
  {
  }

  /** `stop` writes state `ready` with only the base envelope. */
  lemma StopWritesReady(input: string, parsed: ParseOutcome, hook: HookData, env: Env, dir: Directory)
    requires Delivered(input, parsed, hook) && ValidSessionId(hook)
    ensures var r := Dispatch(Some("stop"), input, parsed, env, dir);
      var f := SessionFile(hook["session_id"]);
      && r.Ok? && f in r.value
      && r.value[f].state == Ready
      && r.value[f].metadata == BaseMetadata(hook, env)
  {
    assert BaseMetadata(hook, env) + map[] == BaseMetadata(hook, env);
  }

  /** `waiting` writes state `waiting` and adds `notification_type` and `message`. */
  lemma WaitingWritesNotification(input: string, parsed: ParseOutcome, hook: HookData, env: Env, dir: Directory)
    requires Delivered(input, parsed, hook) && ValidSessionId(hook)
    ensures var r := Dispatch(Some("waiting"), input, parsed, env, dir);
      var f := SessionFile(hook["session_id"]);
      && r.Ok? && f in r.value
      && r.value[f].state == Waiting
      && r.value[f].metadata.Keys == BaseKeys + {"notification_type", "message"}
      && r.value[f].metadata["notification_type"] == Lookup(hook, "notification_type")
      && r.value[f].metadata["message"] == Lookup(hook, "message")
  {
  }

  /** `working` writes state `working` and adds `prompt`. */
  lemma WorkingWritesPrompt(input: string, parsed: ParseOutcome, hook: HookData, env: Env, dir: Directory)
    requires Delivered(input, parsed, hook) && ValidSessionId(hook)
    ensures var r := Dispatch(Some("working"), input, parsed, env, dir);
      var f := SessionFile(hook["session_id"]);
      && r.Ok? && f in r.value
      && r.value[f].state == Working
      && r.value[f].metadata.Keys == BaseKeys + {"prompt"}
      && r.value[f].metadata["prompt"] == Lookup(hook, "prompt")
  {
  }

  /** Every recognised command rejects a payload without a usable session id. */
  lemma MissingSessionIdRejected(command: Option<string>, input: string, parsed: ParseOutcome, hook: HookData,
                                 env: Env, dir: Directory)
    requires Delivered(input, parsed, hook) && !ValidSessionId(hook)
    requires ParseCommand(command).Some?
    ensures Dispatch(command, input, parsed, env, dir) == Err(MissingSessionId)
  {
  }

  /**
   * The writer enforces no transition table: what a writing command stores
   * for a session does not depend on the directory's previous contents.
   */
  lemma WriteIgnoresPreviousRecord(command: Option<string>, input: string, parsed: ParseOutcome, hook: HookData,
                                   env: Env, dir1: Directory, dir2: Directory)
    requires Delivered(input, parsed, hook) && ValidSessionId(hook)
    requires ParseCommand(command).Some? && ParseCommand(command) != Some(EndCmd)
    ensures var f := SessionFile(hook["session_id"]);
      var r1 := Dispatch(command, input, parsed, env, dir1);
      var r2 := Dispatch(command, input, parsed, env, dir2);
      r1.Ok? && r2.Ok? && r1.value[f] == r2.value[f]
  {
  }

  /** A writing command stores the session's file and leaves every other file as it was. */
  lemma WriteKeepsOtherFiles(command: Option<string>, input: string, parsed: ParseOutcome, hook: HookData,
                             env: Env, dir: Directory)
    requires Delivered(input, parsed, hook) && ValidSessionId(hook)
    requires ParseCommand(command).Some? && ParseCommand(command) != Some(EndCmd)
    ensures var f := SessionFile(hook["session_id"]);
      var r := Dispatch(command, input, parsed, env, dir);
      && r.Ok? && r.value.Keys == dir.Keys + {f}
      && forall k :: k in dir && k != f ==> r.value[k] == dir[k]
  {
  }

  /** `end` deletes the session's file, leaves every other file alone, and a second `end` changes nothing. */
  lemma EndRemovesIdempotently(input: string, parsed: ParseOutcome, hook: HookData, env: Env, dir: Directory)
    requires Delivered(input, parsed, hook) && ValidSessionId(hook)
    ensures var f := SessionFile(hook["session_id"]);
      var r := Dispatch(Some("end"), input, parsed, env, dir);
      && r.Ok? && f !in r.value
      && (forall k :: k in dir && k != f ==> k in r.value && r.value[k] == dir[k])
      && (f !in dir ==> r.value == dir)
      && Dispatch(Some("end"), input, parsed, env, r.value) == r
  {
    var f := SessionFile(hook["session_id"]);
    var d := dir - {f};
    assert d - {f} == d;
    assert f !in dir ==> d == dir;
  }

  /**
   * The sessions directory as the writer sees it: whether it exists and the
   * records its files hold.
   */
  class SessionsDirectory {
    var present: bool
    var files: Directory

    /** A directory that does not exist holds no files. */
    ghost predicate Valid()
      reads this
    {
      !present ==> files == map[]
    }

    constructor (present: bool, files: Directory)
      requires !present ==> files == map[]
      ensures Valid() && this.present == present && this.files == files
    {
      this.present := present;
      this.files := files;
    }

    /** `FileUtils.mkdir_p(SESSIONS_DIR)`: create the directory if absent, keep its files. */
    method MakeDirP()
      requires Valid()
      modifies this
      ensures Valid() && present && files == old(files)
    {
      present := true;
    }

    /** `update_session_state`: overwrite the session's file with the new record. */
    method UpdateSessionState(hook: HookData, state: State, extra: Metadata, env: Env) returns (err: Option<Error>)
      requires Valid() && present
      modifies this
      ensures Valid() && present
      ensures match Update(old(files), hook, state, extra, env)
        case Ok(d) => err == None && files == d
        case Err(e) => err == Some(e) && files == old(files)
    {
      if !("session_id" in hook) || hook["session_id"] == "" {
        return Some(MissingSessionId);
      }
      var sessionId := hook["session_id"];
      files := files[SessionFile(sessionId) := BuildRecord(sessionId, hook, state, extra, env)];
      err := None;
    }

    /** `remove_session_state`: delete the session's file if it exists. */
    method RemoveSessionState(hook: HookData) returns (err: Option<Error>)
      requires Valid() && present
      modifies this
      ensures Valid() && present
      ensures match Remove(old(files), hook)
        case Ok(d) => err == None && files == d
        case Err(e) => err == Some(e) && files == old(files)
    {
      if !("session_id" in hook) || hook["session_id"] == "" {
        return Some(MissingSessionId);
      }
      var file := SessionFile(hook["session_id"]);
      if file in files {
        files := files - {file};
      }
      err := None;
    }

    /** One run of the script: `mkdir_p`, read standard input, dispatch on the command. */
    method Run(command: Option<string>, input: string, parsed: ParseOutcome, env: Env) returns (err: Option<Error>)
      requires Valid()
      modifies this
      ensures Valid() && present
      ensures match Dispatch(command, input, parsed, env, old(files))
        case Ok(d) => err == None && files == d
        case Err(e) => err == Some(e) && files == old(files)
      ensures !old(present) ==> match Dispatch(command, input, parsed, env, map[])
        case Ok(d) => files == d
        case Err(_) => files == map[]
    {
      MakeDirP();
      var hookInput := ReadHookInput(input, parsed);
      if hookInput.Err? {
        return Some(hookInput.error);
      }
      if hookInput.value.None? {
        return Some(NoInputData);
      }
      var hook := hookInput.value.value;
      var cmd := ParseCommand(command);
      if cmd.None? {
        return Some(UnknownCommand(command));
      }
      if cmd.value == EndCmd {
        err := RemoveSessionState(hook);
      } else {
        var (state, extra) := CommandUpdate(cmd.value, hook);
        err := UpdateSessionState(hook, state, extra, env);
      }
    }
  }
}
