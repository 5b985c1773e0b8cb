# claude-kargos session monitor, modelled in Dafny

A model of the two scripts of claude-kargos, a status-bar monitor for
interactive Claude sessions, and proofs about both.

- The **state writer** (`hooks/session-state-helper.rb`) runs once per hook event.
  It maps the command `start`, `stop`, `waiting`, `working` or `end` to a session state.
  It builds a record from the hook's JSON payload: a fixed metadata envelope merged with
  event-specific fields, plus a `pwd` fallback chain.
  It then overwrites or deletes that session's `<session_id>.json` in the sessions directory.
- The **status reader** (`claude-status.5s.rb`) runs on a timer.
  It collects every record file that parses and prints a status-bar line plus a dropdown.
  The status-bar line holds one per-state icon per session and a three-tier urgency colour.
  The dropdown, which starts after the first `---`, holds a pluralised summary, a session
  count and one line per session.

The two scripts share only the sessions directory. The writer sees it as a
`map<string, Record>` from file name to record, held in a `SessionsDirectory` object that
`MakeDirP`, `UpdateSessionState`, `RemoveSessionState` and `Run` change. `Dispatch` is the
pure statement of one run: it returns either an error or the new directory. The reader
receives the glob as a sequence of entries in enumeration order, each a parsed record or
a failure. `GetSessions` is a loop over that sequence. `Render` returns one string per `puts`
as a `seq<string>`; a string with an embedded newline prints as several physical lines.

Files:

- `basics.dfy`: `Option`, `Result` and Ruby's hash lookup and `||` on nil.
- `text.dfy`: `Array#join` with its inverse, `Integer#to_s` and `File.basename`.
- `session_state_helper.dfy`: the writer.
- `claude_status.dfy`: the reader and renderer.
- `protocol.dfy`: what the reader makes of a record the writer stored.

Inputs turned into parameters:

- Standard input is the raw text plus what `JSON.parse` made of it (`ParseOutcome`).
- `ENV`, `Dir.pwd` and `Time.now.to_i` are an `Env` value.
- The first command-line argument is an `Option<string>`.
- `ENV['HOME']` for the menu is an `Option<string>`.
- Whether the directory exists, and what each globbed file parsed to, are given to the reader.

Icons are their Unicode code points. Colours are the source's hex strings.

The model does only what the scripts do. In particular:

- the reader does no PID-based pruning and never deletes a file;
- the display name has no codename tier;
- the writer stores no `pid`;
- the writer overwrites the file in place, with no temporary file and rename.

Two observations the proofs make explicit:

- The writer stores `project_dir`, never `project`. The reader looks for `metadata.project`,
  so a session the writer stored is always named after its `pwd`
  (`Protocol.WrittenSessionRendering`).
- The summary counts the waiting sessions, or else the working sessions, not all sessions.
  A list of only ready sessions renders in the working colour, never the idle one.

## Model

| member | source | states |
|---|---|---|
| `Basics.Lookup` | hooks/session-state-helper.rb:42-44 | `Hash#[]`: a value exactly when the key is present, and then the stored one; nil otherwise |
| `Basics.OrElse` | hooks/session-state-helper.rb:52 | Ruby's nil-defaulting `or` operator: the value when present, else the fallback |
| `SessionStateHelper.ReadHookInput` | hooks/session-state-helper.rb:14-23 | empty input gives nil; invalid JSON is an error exactly when the input is non-empty and fails to parse; otherwise the parsed object (nil for a JSON null) |
| `SessionStateHelper.SessionFile` | hooks/session-state-helper.rb:26-28 | the file name is the session id followed by `.json` |
| `SessionStateHelper.SessionFileInjective` | hooks/session-state-helper.rb:26-28 | two session ids with the same file name are equal, so sessions never share a file; this holds in the source only for ids with no '/' (see "Left out" on session ids) |
| `SessionStateHelper.SessionId` | hooks/session-state-helper.rb:32-37 | succeeds exactly when `session_id` is present and non-empty, else the missing-session-id error |
| `SessionStateHelper.BaseMetadata` | hooks/session-state-helper.rb:41-45 | the envelope has exactly the keys cwd, transcript_path, permission_mode and project_dir, from the payload and `CLAUDE_PROJECT_DIR` (null when absent) |
| `SessionStateHelper.Merge` | hooks/session-state-helper.rb:46 | the merged metadata has the keys of both maps, and the extra value wins on a clash |
| `SessionStateHelper.Pwd` | hooks/session-state-helper.rb:52 | `pwd` is the payload's cwd if present, else `$PWD`, else the current directory |
| `SessionStateHelper.BuildRecord` | hooks/session-state-helper.rb:48-54 | the record carries the id, state, clock and `Pwd`; its metadata keys are the envelope's plus the extras', extras winning |
| `SessionStateHelper.Update` | hooks/session-state-helper.rb:31-57 | an invalid id is an error; otherwise the session's file holds the new record whole, the key set gains at most that file, every other file is unchanged |
| `SessionStateHelper.Remove` | hooks/session-state-helper.rb:60-70 | an invalid id is an error; otherwise exactly the session's file is removed (if present), every other file is unchanged |
| `SessionStateHelper.ParseCommand` | hooks/session-state-helper.rb:82-101 | each of the five command names, and nothing else, selects its command |
| `SessionStateHelper.StateName` | hooks/session-state-helper.rb:85-94 | the three states are written as the distinct strings waiting, working, ready |
| `SessionStateHelper.CommandUpdate` | hooks/session-state-helper.rb:83-94 | only stop yields ready and only working yields working; no event adds a base-envelope key or a `project` key |
| `SessionStateHelper.Dispatch` | hooks/session-state-helper.rb:73-101 | a run succeeds exactly when input is non-empty, parses to an object, the command is known and the id is valid; empty input, bad JSON and unknown commands give their errors in that order |
| `SessionStateHelper.StartWritesWaiting` | hooks/session-state-helper.rb:83-85 | start stores state waiting, the envelope plus `source`, and `source` defaults to "unknown" |
| `SessionStateHelper.StopWritesReady` | hooks/session-state-helper.rb:86-87 | stop stores state ready with exactly the base envelope as metadata |
| `SessionStateHelper.WaitingWritesNotification` | hooks/session-state-helper.rb:88-91 | waiting stores state waiting plus notification_type and message from the payload |
| `SessionStateHelper.WorkingWritesPrompt` | hooks/session-state-helper.rb:92-94 | working stores state working plus prompt from the payload |
| `SessionStateHelper.MissingSessionIdRejected` | hooks/session-state-helper.rb:34-37 | every known command, end included, fails with the missing-session-id error when the id is absent or empty |
| `SessionStateHelper.WriteIgnoresPreviousRecord` | hooks/session-state-helper.rb:48-56 | what a writing command stores does not depend on the directory's previous contents (no transition check) |
| `SessionStateHelper.WriteKeepsOtherFiles` | hooks/session-state-helper.rb:48-56 | a writing command adds or overwrites only the session's file; every other file keeps its record |
| `SessionStateHelper.EndRemovesIdempotently` | hooks/session-state-helper.rb:68-69 | end removes the session's file, leaves other files as they were, changes nothing when the file is absent, and a second end gives the same directory |
| `SessionStateHelper.SessionsDirectory.MakeDirP` | hooks/session-state-helper.rb:11 | the directory exists afterwards and its files are unchanged |
| `SessionStateHelper.SessionsDirectory.UpdateSessionState` | hooks/session-state-helper.rb:31-57 | the directory afterwards is `Update`'s result, or unchanged with the error |
| `SessionStateHelper.SessionsDirectory.RemoveSessionState` | hooks/session-state-helper.rb:60-70 | the directory afterwards is `Remove`'s result, or unchanged with the error |
| `SessionStateHelper.SessionsDirectory.Run` | hooks/session-state-helper.rb:73-101 | after `mkdir_p` the directory exists, and its files are `Dispatch`'s result, or unchanged with the error; a run that creates the directory starts from no files |
| `ClaudeStatus.GetSessions` | claude-status.5s.rb:23-37 | no sessions when the directory is missing; otherwise exactly the parsable records in enumeration order, skipping failures |
| `ClaudeStatus.Parsable` | claude-status.5s.rb:27-34 | never more sessions than globbed files |
| `ClaudeStatus.ParsableMembers` | claude-status.5s.rb:27-34 | a session is collected if and only if some file parsed to it |
| `ClaudeStatus.ParsableAllReadable` | claude-status.5s.rb:27-34 | when every file parses, every record is kept, at its own position |
| `ClaudeStatus.StateIcon` | claude-status.5s.rb:40-47 | waiting, working and ready get their own distinct icons, anything else (absent included) gets "?"; no icon contains a space |
| `ClaudeStatus.CountInState` | claude-status.5s.rb:74-75 | a count never exceeds the number of sessions |
| `ClaudeStatus.CountPositiveIffAny` | claude-status.5s.rb:74-79 | a state's count is positive if and only if some session is in that state |
| `ClaudeStatus.AnyInState` | claude-status.5s.rb:62-64 | no contract of its own; `CountPositiveIffAny` ties it to `CountInState`, and `HeaderColor` states the colour tiers with it |
| `ClaudeStatus.HeaderColor` | claude-status.5s.rb:52-68 | idle colour if and only if there are no sessions; waiting colour if and only if some session waits; otherwise the working colour |
| `ClaudeStatus.Icons` | claude-status.5s.rb:59 | one icon per session, at the session's position |
| `ClaudeStatus.HeaderListsIcons` | claude-status.5s.rb:59-70 | the status-bar line is the icons joined by single spaces, then the colour; splitting at spaces gives the icons back; never the idle colour |
| `ClaudeStatus.HeaderLine` | claude-status.5s.rb:54-70 | no contract of its own; `RenderNoSessions` gives the idle line and `HeaderListsIcons` the icons-then-colour line |
| `Text.Join` | claude-status.5s.rb:59 | no contract of its own; `SplitJoin` states it is undone by `Split` |
| `Text.SplitJoin` | claude-status.5s.rb:59 | joining strings with a separator none of them contains is undone by splitting at it |
| `ClaudeStatus.PluralSuffix` | claude-status.5s.rb:78-80 | the suffix is "s" if and only if the count is not one |
| `ClaudeStatus.SummaryLine` | claude-status.5s.rb:74-83 | no contract of its own; `SummaryWhenWaiting`, `SummaryWhenWorking` and `SummaryWhenAllReady` give its three tiers |
| `ClaudeStatus.SummaryWhenWaiting` | claude-status.5s.rb:77-78 | if any session waits, the summary counts the waiting sessions "waiting for input!" |
| `ClaudeStatus.SummaryWhenWorking` | claude-status.5s.rb:79-80 | otherwise, if any session works, the summary counts the working sessions "working" |
| `ClaudeStatus.SummaryWhenAllReady` | claude-status.5s.rb:81-83 | with no session waiting or working, the summary is "All sessions ready" |
| `ClaudeStatus.WorkingOutranksReady` | claude-status.5s.rb:62-83 | a ready and a working session give the working colour and "1 session working" |
| `ClaudeStatus.WaitingOutranksAll` | claude-status.5s.rb:62-83 | waiting, working and ready sessions give the waiting colour and "1 session waiting for input!" |
| `ClaudeStatus.DisplayPath` | claude-status.5s.rb:90 | the name source is `metadata.project` if present, else `pwd`, else "Unknown" |
| `ClaudeStatus.DisplayNameFallback` | claude-status.5s.rb:90-91 | the display name is the last path component of the project, else of pwd, else "Unknown" |
| `Text.Basename` | claude-status.5s.rb:91 | the basename is empty only for an empty path, contains no '/' unless it is "/", and is the path itself when the path has no '/' |
| `Text.BasenameOfPath` | claude-status.5s.rb:91 | the basename of `dir/name` is `name` |
| `Text.BasenameOfChild` | claude-status.5s.rb:91 | trailing slashes do not change the basename of `dir/name` |
| `ClaudeStatus.DetailLine` | claude-status.5s.rb:89-93 | no contract of its own; `DisplayNameFallback` gives its name part, `StateText` its state part, `Protocol.WrittenSessionRendering` the line for a stored session |
| `ClaudeStatus.StateText` | claude-status.5s.rb:93 | the state in parentheses is the record's state, or empty when it is absent |
| `ClaudeStatus.DetailLines` | claude-status.5s.rb:88-94 | one detail line per session, in list order |
| `Text.NatToString` | claude-status.5s.rb:87 | a count prints as non-empty decimal digits with no leading zero |
| `Text.NatToStringValue` | claude-status.5s.rb:87 | the printed digits denote the count |
| `ClaudeStatus.Render` | claude-status.5s.rb:50-100 | no contract of its own; `RenderNoSessions`, `RenderOpening`, `RenderCountsSessions`, `RenderDetails` and `RenderEndsWithMenu` give its layout |
| `ClaudeStatus.MenuLines` | claude-status.5s.rb:97-100 | no contract of its own; `RenderEndsWithMenu` puts it at the end of every output |
| `ClaudeStatus.RenderNoSessions` | claude-status.5s.rb:52-56 | with no sessions the output is the idle line, `---`, "No active sessions", then the menu block |
| `ClaudeStatus.RenderOpening` | claude-status.5s.rb:70-87 | with k sessions the output has k+8 strings, one per `puts`: status-bar line, `---`, summary, `---`, "Active Sessions (k):" |
| `ClaudeStatus.RenderCountsSessions` | claude-status.5s.rb:87 | the number printed in "Active Sessions (k):" is the number of sessions |
| `ClaudeStatus.RenderDetails` | claude-status.5s.rb:88-100 | the detail lines follow the count line, one per session in order, and the menu block comes right after |
| `ClaudeStatus.RenderEndsWithMenu` | claude-status.5s.rb:97-100 | every output ends with the three menu lines |
| `ClaudeStatus.TwoSessionExample` | claude-status.5s.rb:50-100 | a waiting session in .../proj1 and a working one on project .../proj2 render as the waiting colour, "1 session waiting for input!", "proj1 (waiting)" and "proj2 (working)" lines |
| `ClaudeStatus.Refresh` | claude-status.5s.rb:50-100 | the output is the rendering of the parsable records, or of none when the directory is missing |
| `Protocol.ReadBack` | claude-status.5s.rb:29 | the reader's view of a stored record: the state name, the pwd and the non-null metadata entries (the JSON round trip is this definition, see "Left out") |
| `Protocol.WrittenRecordReadBack` | hooks/session-state-helper.rb:41-54 | a session stored by start/stop/waiting/working reads back with its command's state, the `Pwd` chain's choice, cwd/transcript_path/permission_mode present exactly when the payload had them and with its values, project_dir exactly when `CLAUDE_PROJECT_DIR` is set, and no `project` |
| `Protocol.WrittenExtrasReadBack` | hooks/session-state-helper.rb:83-94 | the stored record reads back with start's `source` always (payload's or "unknown"), waiting's notification_type and message and working's prompt exactly when the payload had them, and no other key beyond the envelope |
| `Protocol.WrittenSessionRendering` | claude-status.5s.rb:88-94 | a session stored by start/stop/waiting/working, once the reader lists its file, renders with its command's state icon (never "?"), the basename of its pwd, and the state name |

## Left out

- File-system effects (`mkdir_p`, `Dir.glob`, `File.read`, `File.write`, `File.delete`) are a map and a sequence of entries; storage errors such as a failing write or a permission error are not modelled.
- JSON parsing and `JSON.pretty_generate` are library calls: parse success or failure is an input.
- Protocol.ReadBack: the JSON round trip (`JSON.pretty_generate` in the writer, `JSON.parse` and `dig` in the reader) is assumed as its definition, not proved; what is proved is that the writer's payload reaches it (`Protocol.WrittenRecordReadBack`, `Protocol.WrittenExtrasReadBack`).
- Payload and record fields are strings or absent. Values of any other JSON type, `false` included, are outside the model. In Ruby, `false` behaves like nil under `||` (hooks/session-state-helper.rb:52 and :84, claude-status.5s.rb:90), raises on `false.empty?` (hooks/session-state-helper.rb:34), and prints as "false" in the state text (claude-status.5s.rb:93). A numeric `cwd` is stored without error by the writer and raises only in the reader's `File.basename` (claude-status.5s.rb:91).
- A record file that holds valid JSON which is not an object (`null`, `[]`, a number, a string) is appended by the reader (claude-status.5s.rb:29-30) and then crashes the rendering (line 59, or line 90 for a string) instead of being skipped. `DirEntry` has only a parsed record and an unreadable file, so this case is not modelled.
- A state, pwd or project containing a newline prints as several physical lines; the output is modelled as one string per `puts`.
- Session ids are modelled for names with no '/' and no leading '.'; the model treats `<id>.json` as an opaque key of the directory, a file the reader's glob lists. `File.join` (hooks/session-state-helper.rb:27) differs for other ids:
  - a leading '/' is absorbed, so `x` and `/x` name the same file, and `end` or `start` with `/x` deletes or overwrites session `x`'s record (lines 56, 69); `SessionFileInjective` and the "every other file is unchanged" frames of `Update` and `Remove` hold in the source only without it;
  - an inner '/' (`a/b`) names a file in a subdirectory: `File.write` raises unless that subdirectory exists, and the reader's non-recursive glob (claude-status.5s.rb:27) never lists it;
  - only an id with a `..` component leaves the sessions directory;
  - `Dir.glob('*.json')` skips names starting with '.', so a session with an id like `.x` is stored but never shown.
- A writer payload that is valid JSON but neither an object nor null (an array, a number, a string, `true`) is outside `ParseOutcome`. Ruby raises at the first `hook_data[...]` (line 32, 61, 84, 89 or 93), except that a string payload is searched for the key as a substring.
- Standard-error messages and exit statuses are the `Error` values; their text is not modelled.
- The glob's restriction to `*.json` names and its enumeration order are given by the caller.
- The Kargos menu syntax and the shell command on the last line are not interpreted; that line only carries `ENV['HOME']`, empty when unset.
- Concurrency between writer and reader (a file vanishing between listing and reading shows up as an unreadable entry) is not modelled further.
- The refresh interval and the rendering host are outside the scripts.
