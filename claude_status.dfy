/**
 * The status reader and renderer (claude-status.5s.rb): collect the session
 * records that parse, then print the status-bar line and the dropdown as a
 * sequence of output lines.
 *
 * The glob of the sessions directory is given as the sequence of its
 * entries in enumeration order, each one either a parsed record or a file
 * that could not be read or parsed.
 */
module ClaudeStatus {
  import opened Basics
  import opened Text

  /** The fields of a parsed record that the renderer reads; `metadata` holds its non-null string values. */
  datatype Session = Session(state: Option<string>, pwd: Option<string>, metadata: map<string, string>)

  /** One file matched by the glob: the record it parsed to, or a read or parse failure. */
  datatype DirEntry = Readable(session: Session) | Unreadable

  const IconWaiting: string := "\U{23F8}\U{FE0F}"
  const IconWorking: string := "\U{2699}\U{FE0F}"
  const IconIdle: string := "\U{1F4A4}"
  const IconClaude: string := "\U{1F916}"
  const IconReady: string := "\U{2713}"
  const IconUnknown: string := "?"

  const ColorWaiting: string := "#FFA500"
  const ColorWorking: string := "#00FF00"
  const ColorIdle: string := "#808080"

  /** The parsable records among the entries, in enumeration order (reference for GetSessions). */
  function Parsable(entries: seq<DirEntry>): (sessions: seq<Session>)
    ensures |sessions| <= |entries|
  {
    if entries == [] then []
    else
      match entries[0]
      case Readable(s) => [s] + Parsable(entries[1..])
      case Unreadable => Parsable(entries[1..])
  }

  lemma {:induction false} ParsableAppend(a: seq<DirEntry>, b: seq<DirEntry>)
    ensures Parsable(a + b) == Parsable(a) + Parsable(b)
  {
    if a == [] {
      assert a + b == b;
    } else {
      assert (a + b)[1..] == a[1..] + b;
      ParsableAppend(a[1..], b);
    }
  }

  /** A session is collected exactly when some entry parsed to it. */
  lemma {:induction false} ParsableMembers(entries: seq<DirEntry>, s: Session)
    ensures s in Parsable(entries) <==> Readable(s) in entries
  {
    if entries != [] {
      ParsableMembers(entries[1..], s);
      assert entries == [entries[0]] + entries[1..];
    }
  }

  /** With no unreadable file, every entry is collected, in order. */
  lemma {:induction false} ParsableAllReadable(entries: seq<DirEntry>)
    requires forall i :: 0 <= i < |entries| ==> entries[i].Readable?
    ensures |Parsable(entries)| == |entries|
    ensures forall i :: 0 <= i < |entries| ==> Parsable(entries)[i] == entries[i].session
  {
    if entries != [] {
      ParsableAllReadable(entries[1..]);
    }
  }

  /** `get_sessions`: no sessions without a directory; otherwise the parsable records, failures skipped. */
  method GetSessions(dirExists: bool, entries: seq<DirEntry>) returns (sessions: seq<Session>)
    ensures sessions == if dirExists then Parsable(entries) else []
  {
    if !dirExists {
      return [];
    }
    sessions := [];
    var i := 0;
    while i < |entries|
      invariant 0 <= i <= |entries|
      invariant sessions == Parsable(entries[..i])
    {
      ParsableAppend(entries[..i], [entries[i]]);
      assert entries[..i + 1] == entries[..i] + [entries[i]];
      if entries[i].Readable? {
        sessions := sessions + [entries[i].session];
      }
      i := i + 1;
    }
    assert entries[..i] == entries;
  }

  /** `state_icon`: three distinct icons for the three states, "?" for anything else. */
  function StateIcon(state: Option<string>): (icon: string)
    ensures icon == IconWaiting <==> state == Some("waiting")
    ensures icon == IconWorking <==> state == Some("working")
    ensures icon == IconReady <==> state == Some("ready")
    ensures icon == IconUnknown <==> state !in {Some("waiting"), Some("working"), Some("ready")}
    ensures ' ' !in icon && icon != ""
  {
    match state
    case Some("waiting") => IconWaiting
    case Some("working") => IconWorking
    case Some("ready") => IconReady
    case _ => IconUnknown
  }

  predicate InState(s: Session, name: string)
  {
    s.state == Some(name)
  }

  /** `sessions.count { |s| s["state"] == name }`. */
  function CountInState(sessions: seq<Session>, name: string): (n: nat)
    ensures n <= |sessions|
  {
    if sessions == [] then 0
    else (if InState(sessions[0], name) then 1 else 0) + CountInState(sessions[1..], name)
  }

  /** The count is positive exactly when some session is in that state. */
  lemma {:induction false} CountPositiveIffAny(sessions: seq<Session>, name: string)
    ensures CountInState(sessions, name) > 0 <==> AnyInState(sessions, name)
  {
    if sessions != [] {
      CountPositiveIffAny(sessions[1..], name);
      if AnyInState(sessions[1..], name) {
        var i :| 0 <= i < |sessions[1..]| && InState(sessions[1..][i], name);
        assert InState(sessions[i + 1], name);
      }
      if AnyInState(sessions, name) && !InState(sessions[0], name) {
        var i :| 0 <= i < |sessions| && InState(sessions[i], name);
        assert InState(sessions[1..][i - 1], name);
      }
    }
  }

  /** `sessions.any? { |s| s["state"] == name }`. */
  predicate AnyInState(sessions: seq<Session>, name: string)
  {
    exists i :: 0 <= i < |sessions| && InState(sessions[i], name)
  }

  /**
   * The colour of the status-bar line: idle for no sessions, else the waiting
   * colour if any session waits, else the working colour.
   */
  function HeaderColor(sessions: seq<Session>): (color: string)
    ensures color == ColorIdle <==> sessions == []
    ensures color == ColorWaiting <==> AnyInState(sessions, "waiting")
    ensures color == ColorWorking <==> sessions != [] && !AnyInState(sessions, "waiting")
  {
    if sessions == [] then ColorIdle
    else if AnyInState(sessions, "waiting") then ColorWaiting
    else if AnyInState(sessions, "working") then ColorWorking
    else ColorWorking
  }

  /** The icon of each session, in list order. */
  function Icons(sessions: seq<Session>): (icons: seq<string>)
    ensures |icons| == |sessions|
    ensures forall i :: 0 <= i < |sessions| ==> icons[i] == StateIcon(sessions[i].state)
  {
    seq(|sessions|, i requires 0 <= i < |sessions| => StateIcon(sessions[i].state))
  }

  /** The status-bar line (the first line printed). */
  function HeaderLine(sessions: seq<Session>): (line: string)
  {
    if sessions == [] then IconClaude + " " + IconIdle + " | color=" + ColorIdle + " size=20"
    else Join(Icons(sessions), ' ') + " | color=" + HeaderColor(sessions) + " size=20"
  }

  /** The `s` of "sessions": present exactly when the count is not one. */
  function PluralSuffix(n: nat): (suffix: string)
    ensures suffix == "s" <==> n != 1
    ensures suffix == "" <==> n == 1
  {
    if n != 1 then "s" else ""
  }

  /** The summary line of the dropdown for a non-empty session list. */
  function SummaryLine(sessions: seq<Session>): (line: string)
  {
    var waiting := CountInState(sessions, "waiting");
    var working := CountInState(sessions, "working");
    if waiting > 0 then NatToString(waiting) + " session" + PluralSuffix(waiting) + " waiting for input!"
    else if working > 0 then NatToString(working) + " session" + PluralSuffix(working) + " working"
    else "All sessions ready"
  }

  /** The path a session is named after: `metadata.project`, else `pwd`, else "Unknown". */
  function DisplayPath(s: Session): (path: string)
    ensures "project" in s.metadata ==> path == s.metadata["project"]
    ensures "project" !in s.metadata && s.pwd.Some? ==> path == s.pwd.value
    ensures "project" !in s.metadata && s.pwd.None? ==> path == "Unknown"
  {
    OrElse(Lookup(s.metadata, "project"), OrElse(s.pwd, "Unknown"))
  }

  /** `"#{session['state']}"`: a missing state interpolates as the empty string. */
  function StateText(state: Option<string>): (text: string)
    ensures state.Some? ==> text == state.value
    ensures state.None? ==> text == ""
  {
    OrElse(state, "")
  }

  /** The dropdown line of one session: `icon name (state)`. */
  function DetailLine(s: Session): (line: string)
  {
    StateIcon(s.state) + " " + Basename(DisplayPath(s)) + " (" + StateText(s.state) + ")"
  }

  function DetailLines(sessions: seq<Session>): (lines: seq<string>)
    ensures |lines| == |sessions|
    ensures forall i :: 0 <= i < |sessions| ==> lines[i] == DetailLine(sessions[i])
  {
    seq(|sessions|, i requires 0 <= i < |sessions| => DetailLine(sessions[i]))
  }

  /** The trailing menu, printed whether or not there are sessions; `home` is `ENV['HOME']`. */
  function MenuLines(home: Option<string>): (lines: seq<string>)
  {
    ["---",
     "Refresh | refresh=true terminal=false",
     "Open Claude Code | bash='cd " + OrElse(home, "") + " && claude' terminal=true"]
  }

  /** Everything the script prints, one string per `puts`. */
  function Render(sessions: seq<Session>, home: Option<string>): (lines: seq<string>)
  {
    if sessions == [] then
      [HeaderLine(sessions), "---", "No active sessions"] + MenuLines(home)
    else
      [HeaderLine(sessions), "---", SummaryLine(sessions), "---",
       "Active Sessions (" + NatToString(|sessions|) + "):"]
      + DetailLines(sessions) + MenuLines(home)
  }

  /** With no sessions: the idle line, a separator, "No active sessions", then the menu. */
  lemma RenderNoSessions(home: Option<string>)
    ensures Render([], home) ==
      [IconClaude + " " + IconIdle + " | color=" + ColorIdle + " size=20", "---", "No active sessions"]
      + MenuLines(home)
  {
  }

  /**
   * With sessions, the output opens with the status-bar line, a separator,
   * the summary, a separator and the count of sessions.
   */
  lemma RenderOpening(sessions: seq<Session>, home: Option<string>)
    requires sessions != []
    ensures var out := Render(sessions, home);
      && |out| == |sessions| + 8
      && out[..5] == [HeaderLine(sessions), "---", SummaryLine(sessions), "---",
                      "Active Sessions (" + NatToString(|sessions|) + "):"]
  {
    var head := [HeaderLine(sessions), "---", SummaryLine(sessions), "---",
                 "Active Sessions (" + NatToString(|sessions|) + "):"];
    RenderLayout(sessions, home, head);
    SliceParts(head, DetailLines(sessions), MenuLines(home));
  }

  /** The count in "Active Sessions (k):" is the number of sessions. */
  lemma RenderCountsSessions(sessions: seq<Session>, home: Option<string>)
    requires sessions != []
    ensures exists k :: Render(sessions, home)[4] == "Active Sessions (" + k + "):" && IsDigits(k) && DigitsValue(k) == |sessions|
  {
    RenderOpening(sessions, home);
    NatToStringValue(|sessions|);
    var out := Render(sessions, home);
    assert out[4] == out[..5][4];
  }

  /** After the count line come exactly one detail line per session, in list order, then the menu. */
  lemma RenderDetails(sessions: seq<Session>, home: Option<string>)
    requires sessions != []
    ensures var out := Render(sessions, home);
      && |out| == |sessions| + 8
      && out[5..|sessions| + 5] == DetailLines(sessions)
      && out[|sessions| + 5..] == MenuLines(home)
  {
    var head := [HeaderLine(sessions), "---", SummaryLine(sessions), "---",
                 "Active Sessions (" + NatToString(|sessions|) + "):"];
    RenderLayout(sessions, home, head);
    SliceParts(head, DetailLines(sessions), MenuLines(home));
  }

  lemma RenderLayout(sessions: seq<Session>, home: Option<string>, head: seq<string>)
    requires sessions != []
    requires head == [HeaderLine(sessions), "---", SummaryLine(sessions), "---",
                      "Active Sessions (" + NatToString(|sessions|) + "):"]
    ensures Render(sessions, home) == head + DetailLines(sessions) + MenuLines(home)
  {
  }

  lemma SliceParts<T>(a: seq<T>, b: seq<T>, c: seq<T>)
    ensures var s := a + b + c;
      && |s| == |a| + |b| + |c|
      && s[..|a|] == a
      && s[|a|..|a| + |b|] == b
      && s[|a| + |b|..] == c
  {
    var s := a + b + c;
    assert s[..|a|] == a;
    assert s[|a|..|a| + |b|] == b;
    assert s[|a| + |b|..] == c;
  }

  /** The menu block always closes the output. */
  lemma RenderEndsWithMenu(sessions: seq<Session>, home: Option<string>)
    ensures var out := Render(sessions, home);
      |out| >= 6 && out[|out| - 3..] == MenuLines(home)
  {
    if sessions != [] {
      RenderDetails(sessions, home);
    }
  }

  /**
   * The status-bar line of a non-empty list is the icons joined by single
   * spaces, one per session in list order, so splitting at spaces gives
   * them back; then the colour.
   */
  lemma HeaderListsIcons(sessions: seq<Session>)
    requires sessions != []
    ensures HeaderLine(sessions) == Join(Icons(sessions), ' ') + " | color=" + HeaderColor(sessions) + " size=20"
    ensures Split(Join(Icons(sessions), ' '), ' ') == Icons(sessions)
    ensures HeaderColor(sessions) != ColorIdle
  {
    SplitJoin(Icons(sessions), ' ');
  }

  /** First tier of the summary: if any session waits, the waiting sessions are counted. */
  lemma SummaryWhenWaiting(sessions: seq<Session>)
    requires AnyInState(sessions, "waiting")
    ensures CountInState(sessions, "waiting") >= 1
    ensures SummaryLine(sessions) == NatToString(CountInState(sessions, "waiting")) + " session"
      + PluralSuffix(CountInState(sessions, "waiting")) + " waiting for input!"
  {
    CountPositiveIffAny(sessions, "waiting");
  }

  /** Second tier: else, if any session works, the working sessions are counted. */
  lemma SummaryWhenWorking(sessions: seq<Session>)
    requires !AnyInState(sessions, "waiting") && AnyInState(sessions, "working")
    ensures CountInState(sessions, "working") >= 1
    ensures SummaryLine(sessions) == NatToString(CountInState(sessions, "working")) + " session"
      + PluralSuffix(CountInState(sessions, "working")) + " working"
  {
    CountPositiveIffAny(sessions, "waiting");
    CountPositiveIffAny(sessions, "working");
  }

  /** Last tier: with no session waiting or working, "All sessions ready". */
  lemma SummaryWhenAllReady(sessions: seq<Session>)
    requires !AnyInState(sessions, "waiting") && !AnyInState(sessions, "working")
    ensures SummaryLine(sessions) == "All sessions ready"
  {
    CountPositiveIffAny(sessions, "waiting");
    CountPositiveIffAny(sessions, "working");
  }

  /**
   * The display name is the last component of `metadata.project` when that
   * is set, else of `pwd`, else "Unknown".
   */
  lemma DisplayNameFallback(s: Session, dir: string, name: string)
    requires name != [] && '/' !in name
    ensures "project" in s.metadata && s.metadata["project"] == dir + "/" + name ==>
      Basename(DisplayPath(s)) == name
    ensures "project" !in s.metadata && s.pwd == Some(dir + "/" + name) ==>
      Basename(DisplayPath(s)) == name
    ensures "project" !in s.metadata && s.pwd.None? ==> Basename(DisplayPath(s)) == "Unknown"
  {
    if "project" in s.metadata || s.pwd.Some? {
      BasenameOfPath(dir, name);
    } else {
      assert DisplayPath(s) == "Unknown";
    }
  }

  lemma OneWaitingText()
    ensures NatToString(1) + " session" + PluralSuffix(1) + " waiting for input!" == "1 session waiting for input!"
  {
  }

  lemma OneWorkingText()
    ensures NatToString(1) + " session" + PluralSuffix(1) + " working" == "1 session working"
  {
  }

  /** Ready sessions beside a working one report working, never idle. */
  lemma WorkingOutranksReady(ready: Session, working: Session)
    requires ready.state == Some("ready") && working.state == Some("working")
    ensures HeaderColor([ready, working]) == ColorWorking
    ensures SummaryLine([ready, working]) == "1 session working"
  {
    var ss := [ready, working];
    assert ss[1..] == [working] && ss[1..][1..] == [];
    assert InState(ss[1], "working");
    assert !AnyInState(ss, "waiting") by {
      forall i | 0 <= i < |ss| ensures !InState(ss[i], "waiting") {
      }
    }
    assert CountInState(ss, "waiting") == 0 && CountInState(ss, "working") == 1;
    assert SummaryLine(ss) == NatToString(1) + " session" + PluralSuffix(1) + " working";
    OneWorkingText();
  }

  /** A waiting session outranks working and ready ones. */
  lemma WaitingOutranksAll(waiting: Session, working: Session, ready: Session)
    requires ready.state == Some("ready") && working.state == Some("working") && waiting.state == Some("waiting")
    ensures HeaderColor([waiting, working, ready]) == ColorWaiting
    ensures SummaryLine([waiting, working, ready]) == "1 session waiting for input!"
  {
    var ss := [waiting, working, ready];
    assert ss[1..] == [working, ready] && ss[1..][1..] == [ready] && ss[1..][1..][1..] == [];
    assert InState(ss[0], "waiting");
    assert CountInState(ss[1..][1..], "waiting") == 0;
    assert CountInState(ss[1..], "waiting") == 0;
    assert CountInState(ss, "waiting") == 1;
    assert SummaryLine(ss) == NatToString(1) + " session" + PluralSuffix(1) + " waiting for input!";
    OneWaitingText();
  }

  /** Session A of the two-session example: waiting in `parent`/proj1. */
  function ExampleA(parent: string): Session
  {
    Session(Some("waiting"), Some(parent + "/proj1"), map[])
  }

  /** Session B of the two-session example: working on project `parent`/proj2. */
  function ExampleB(parent: string): Session
  {
    Session(Some("working"), None, map["project" := parent + "/proj2"])
  }

  lemma ExampleHeader(parent: string)
    ensures HeaderLine([ExampleA(parent), ExampleB(parent)]) ==
      IconWaiting + " " + IconWorking + " | color=" + ColorWaiting + " size=20"
  {
    var ss := [ExampleA(parent), ExampleB(parent)];
    assert InState(ss[0], "waiting");
    assert Icons(ss) == [IconWaiting, IconWorking];
    assert Join([IconWaiting, IconWorking], ' ') == IconWaiting + " " + IconWorking;
  }

  lemma ExampleSummary(parent: string)
    ensures SummaryLine([ExampleA(parent), ExampleB(parent)]) == "1 session waiting for input!"
  {
    var ss := [ExampleA(parent), ExampleB(parent)];
    assert ss[1..] == [ExampleB(parent)] && ss[1..][1..] == [];
    assert InState(ss[0], "waiting");
    assert !InState(ss[1], "waiting");
    assert CountInState(ss[1..], "waiting") == 0;
    assert CountInState(ss, "waiting") == 1;
    assert SummaryLine(ss) == NatToString(1) + " session" + PluralSuffix(1) + " waiting for input!";
    OneWaitingText();
  }

  lemma ExampleDetailA(parent: string)
    ensures DetailLine(ExampleA(parent)) == IconWaiting + " proj1 (waiting)"
  {
    var a := ExampleA(parent);
    assert Basename(DisplayPath(a)) == "proj1" by {
      assert parent + "/proj1" == parent + "/" + "proj1";
      DisplayNameFallback(a, parent, "proj1");
    }
  }

  lemma ExampleDetailB(parent: string)
    ensures DetailLine(ExampleB(parent)) == IconWorking + " proj2 (working)"
  {
    var b := ExampleB(parent);
    assert Basename(DisplayPath(b)) == "proj2" by {
      assert parent + "/proj2" == parent + "/" + "proj2";
      DisplayNameFallback(b, parent, "proj2");
    }
  }

  lemma ExampleCountLine(parent: string)
    ensures "Active Sessions (" + NatToString(|[ExampleA(parent), ExampleB(parent)]|) + "):" == "Active Sessions (2):"
  {
    assert NatToString(2) == "2";
  }

  /**
   * Two sessions, A waiting in `parent`/proj1 and B working on project
   * `parent`/proj2: the waiting colour, one waiting session counted, and a
   * detail line for each, named after the last path component.
   */
  lemma TwoSessionExample(parent: string, home: Option<string>)
    ensures Render([ExampleA(parent), ExampleB(parent)], home) ==
      [IconWaiting + " " + IconWorking + " | color=" + ColorWaiting + " size=20",
       "---",
       "1 session waiting for input!",
       "---",
       "Active Sessions (2):",
       IconWaiting + " proj1 (waiting)",
       IconWorking + " proj2 (working)"]
      + MenuLines(home)
  {
    var ss := [ExampleA(parent), ExampleB(parent)];
    ExampleHeader(parent);
    ExampleSummary(parent);
    ExampleDetailA(parent);
    ExampleDetailB(parent);
    ExampleCountLine(parent);
    var head := [HeaderLine(ss), "---", SummaryLine(ss), "---", "Active Sessions (" + NatToString(|ss|) + "):"];
    RenderLayout(ss, home, head);
    assert DetailLines(ss) == [DetailLine(ExampleA(parent)), DetailLine(ExampleB(parent))];
    assert head + DetailLines(ss) ==
      [IconWaiting + " " + IconWorking + " | color=" + ColorWaiting + " size=20",
       "---",
       "1 session waiting for input!",
       "---",
       "Active Sessions (2):",
       IconWaiting + " proj1 (waiting)",
       IconWorking + " proj2 (working)"];
  }

  /** The whole script: collect the sessions, then render them. */
  method Refresh(dirExists: bool, entries: seq<DirEntry>, home: Option<string>) returns (output: seq<string>)
    ensures output == Render(if dirExists then Parsable(entries) else [], home)
  {
    var sessions := GetSessions(dirExists, entries);
    output := Render(sessions, home);
  }
}
