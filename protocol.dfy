/**
 * The one contract between the two scripts: a record the state writer
 * stores is what the status reader later parses and renders, for session
 * ids with no '/' and no leading '.', whose file the reader's glob lists.
 */
module Protocol {
  import opened Basics
  import opened Text
  import W = SessionStateHelper
  import R = ClaudeStatus

  /**
   * What the reader's `JSON.parse` gives back for a record the writer stored
   * with `JSON.pretty_generate`: the state's name, the `pwd`, and the
   * metadata entries that are not null.
   */
  function ReadBack(r: W.Record): (s: R.Session)
    ensures s.state == Some(W.StateName(r.state)) && s.pwd == Some(r.pwd)
    ensures forall k :: k in s.metadata <==> k in r.metadata && r.metadata[k].Some?
    ensures forall k :: k in s.metadata ==> Some(s.metadata[k]) == r.metadata[k]
  {
    R.Session(Some(W.StateName(r.state)), Some(r.pwd),
              map k | k in r.metadata && r.metadata[k].Some? :: r.metadata[k].value)
  }

  /** The metadata the reader sees holds `key` exactly when the writer's `value` was not nil, and then that value. */
  predicate Carries(md: map<string, string>, key: string, value: Option<string>)
  {
    (key in md <==> value.Some?) && (key in md ==> md[key] == value.value)
  }

  /**
   * What the writer was given reaches the reader: a session stored by
   * `start`, `stop`, `waiting` or `working` reads back with the command's
   * state, the `pwd` chosen from the payload and the environment, the
   * payload's envelope fields and `CLAUDE_PROJECT_DIR` when they were set,
   * and no `project`.
   */
  lemma WrittenRecordReadBack(command: Option<string>, input: string, parsed: W.ParseOutcome,
                              hook: W.HookData, env: W.Env, dir: W.Directory)
    requires W.Delivered(input, parsed, hook) && W.ValidSessionId(hook)
    requires W.ParseCommand(command).Some? && W.ParseCommand(command) != Some(W.EndCmd)
    ensures var r := W.Dispatch(command, input, parsed, env, dir);
      var f := W.SessionFile(hook["session_id"]);
      && r.Ok? && f in r.value
      && var s := ReadBack(r.value[f]);
      && s.state == Some(W.StateName(W.CommandUpdate(W.ParseCommand(command).value, hook).0))
      && s.pwd == Some(W.Pwd(hook, env))
      && Carries(s.metadata, "cwd", Lookup(hook, "cwd"))
      && Carries(s.metadata, "transcript_path", Lookup(hook, "transcript_path"))
      && Carries(s.metadata, "permission_mode", Lookup(hook, "permission_mode"))
      && Carries(s.metadata, "project_dir", Lookup(env.vars, "CLAUDE_PROJECT_DIR"))
      && "project" !in s.metadata
  {
    var cmd := W.ParseCommand(command).value;
    var (state, extra) := W.CommandUpdate(cmd, hook);
    var f := W.SessionFile(hook["session_id"]);
    var rec := W.Dispatch(command, input, parsed, env, dir).value[f];
    assert rec == W.BuildRecord(hook["session_id"], hook, state, extra, env);
    var base := W.BaseMetadata(hook, env);
    assert rec.metadata["cwd"] == base["cwd"];
    assert rec.metadata["transcript_path"] == base["transcript_path"];
    assert rec.metadata["permission_mode"] == base["permission_mode"];
    assert rec.metadata["project_dir"] == base["project_dir"];
  }

  /**
   * The event-specific fields reach the reader too: `start`'s `source`
   * always (the payload's or "unknown"), `waiting`'s `notification_type` and
   * `message` and `working`'s `prompt` exactly when the payload had them,
   * and no key beyond the envelope and the command's own fields.
   */
  lemma WrittenExtrasReadBack(command: Option<string>, input: string, parsed: W.ParseOutcome,
                              hook: W.HookData, env: W.Env, dir: W.Directory)
    requires W.Delivered(input, parsed, hook) && W.ValidSessionId(hook)
    requires W.ParseCommand(command).Some? && W.ParseCommand(command) != Some(W.EndCmd)
    ensures var cmd := W.ParseCommand(command).value;
      var r := W.Dispatch(command, input, parsed, env, dir);
      var f := W.SessionFile(hook["session_id"]);
      && r.Ok? && f in r.value
      && var md := ReadBack(r.value[f]).metadata;
      && md.Keys <= W.BaseKeys + W.CommandUpdate(cmd, hook).1.Keys
      && (cmd == W.StartCmd ==> Carries(md, "source", Some(OrElse(Lookup(hook, "source"), "unknown"))))
      && (cmd == W.StopCmd ==> md.Keys <= W.BaseKeys)
      && (cmd == W.WaitingCmd ==>
            Carries(md, "notification_type", Lookup(hook, "notification_type")) && Carries(md, "message", Lookup(hook, "message")))
      && (cmd == W.WorkingCmd ==> Carries(md, "prompt", Lookup(hook, "prompt")))
  {
    var cmd := W.ParseCommand(command).value;
    var (state, extra) := W.CommandUpdate(cmd, hook);
    var f := W.SessionFile(hook["session_id"]);
    var rec := W.Dispatch(command, input, parsed, env, dir).value[f];
    assert rec == W.BuildRecord(hook["session_id"], hook, state, extra, env);
    var md := ReadBack(rec).metadata;
    assert md.Keys <= rec.metadata.Keys;
    match cmd
    case StartCmd =>
      assert rec.metadata["source"] == extra["source"];
    case StopCmd =>
      assert extra == map[];
    case WaitingCmd =>
      assert rec.metadata["notification_type"] == extra["notification_type"];
      assert rec.metadata["message"] == extra["message"];
    case WorkingCmd =>
      assert rec.metadata["prompt"] == extra["prompt"];
  }

  /**
   * A session stored by `start`, `stop`, `waiting` or `working` is rendered
   * with the icon of the command's state (never "?"), named after the last
   * component of its `pwd` (the writer stores no `project`), and followed by
   * the state's name.
   */
  lemma WrittenSessionRendering(command: Option<string>, input: string, parsed: W.ParseOutcome,
                                hook: W.HookData, env: W.Env, dir: W.Directory)
    requires W.Delivered(input, parsed, hook) && W.ValidSessionId(hook)
    requires W.ParseCommand(command).Some? && W.ParseCommand(command) != Some(W.EndCmd)
    ensures var r := W.Dispatch(command, input, parsed, env, dir);
      var f := W.SessionFile(hook["session_id"]);
      var name := W.StateName(W.CommandUpdate(W.ParseCommand(command).value, hook).0);
      && r.Ok? && f in r.value
      && W.StateName(r.value[f].state) == name
      && R.StateIcon(ReadBack(r.value[f]).state) != R.IconUnknown
      && R.DetailLine(ReadBack(r.value[f])) ==
           R.StateIcon(Some(name)) + " " + Basename(W.Pwd(hook, env)) + " (" + name + ")"
  {
    var cmd := W.ParseCommand(command).value;
    var (state, extra) := W.CommandUpdate(cmd, hook);
    var f := W.SessionFile(hook["session_id"]);
    var rec := W.Dispatch(command, input, parsed, env, dir).value[f];
    assert rec == W.BuildRecord(hook["session_id"], hook, state, extra, env);
    assert "project" !in rec.metadata;
    assert "project" !in ReadBack(rec).metadata;
    assert R.DisplayPath(ReadBack(rec)) == rec.pwd;
  }
}
