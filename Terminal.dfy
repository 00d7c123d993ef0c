/** The terminal session engine: a transcript of typed lines, a busy ("thinking")
    flag, the text in the input box, and the one simulated request in flight.
    A submitted command is echoed, then either handled at once (the directives
    `/clear`, `/help`, `/models`, `/session`, `q`, `exit`) or turned into a busy
    phase that a later completion step ends by appending one canned batch. */
module Terminal {
  import opened Wrappers
  import opened Text

  datatype LineKind = Input | Output | System | Error | Success

  /** A transcript entry. The source also gives each line a `Date.now()` id and a
      timestamp; neither takes part in any decision, so neither is kept. */
  datatype Line = Line(kind: LineKind, content: string)

  datatype SessionInfo = SessionInfo(sessionId: string, workdir: string, model: string, approval: string)

  /** The session record the component starts with; nothing ever replaces it. */
  const DefaultSession: SessionInfo :=
    SessionInfo("63b06cac1dfb47b6b9e21c63b164bc9d", "~/dev/github.com/claude-web-buddy", "claude-sonnet-4", "suggest")

  /** The title the terminal shows when the host gives none. */
  const DefaultTitle: string := "Claude Web Buddy Terminal"

  /** The three lines every transcript starts with: a banner naming the title,
      then two capability announcements. */
  function WelcomeLines(title: string): (r: seq<Line>)
    ensures |r| == 3
    ensures r[0].kind == System && Contains(r[0].content, title)
    ensures r[1].kind == Success && r[2].kind == Success
  {
    ContainsMiddle("✳ Welcome to ", title, " research preview!");
    [ Line(System, "✳ Welcome to " + title + " research preview!"),
      Line(Success, "✓ Found 1 MCP server • /mcp"),
      Line(Success, "✓ Loaded project + user memory • /memory") ]
  }

  /** What `handleKeyPress` can hand to `handleCommand`: trimmed and non-empty. */
  predicate IsCommand(cmd: string) {
    cmd != [] && IsTrimmed(cmd)
  }

  /** The echo of a dispatched command. */
  function Echo(cmd: string): (l: Line)
    ensures l.kind == Input && StartsWith(l.content, "> ") && l.content[2..] == cmd
  {
    Line(Input, "> " + cmd)
  }

  // ---------------------------------------------------------------------------
  // Dispatch
  // ---------------------------------------------------------------------------

  /** How `handleCommand` treats a command. Matching is exact and case-sensitive;
      everything else, `/`-prefixed or not, becomes a simulated request. */
  datatype Directive = Clear | Help | Models | ShowSession | Quit | Request

  function Classify(cmd: string): (d: Directive)
    ensures d == Clear <==> cmd == "/clear"
    ensures d == Help <==> cmd == "/help"
    ensures d == Models <==> cmd == "/models"
    ensures d == ShowSession <==> cmd == "/session"
    ensures d == Quit <==> cmd == "q" || cmd == "exit"
    ensures d == Request <==> cmd !in {"/clear", "/help", "/models", "/session", "q", "exit"}
  {
    if cmd == "/clear" then Clear
    else if cmd == "/help" then Help
    else if cmd == "/models" then Models
    else if cmd == "/session" then ShowSession
    else if cmd == "q" || cmd == "exit" then Quit
    else Request
  }

  /** An unknown `/`-prefixed command is not rejected: it is handled like free text. */
  lemma UnknownSlashIsRequest(cmd: string)
    requires StartsWith(cmd, "/")
    requires cmd !in {"/clear", "/help", "/models", "/session"}
    ensures Classify(cmd) == Request
  {
    assert cmd[0] == '/';
    assert cmd != "q" && cmd != "exit" by {
      assert "q"[0] != '/' && "exit"[0] != '/';
    }
  }

  /** The `/help` listing. */
  const HelpLines: seq<Line> :=
    [ Line(System, "Available commands:"),
      Line(System, "  /clear - Clear terminal"),
      Line(System, "  /help - Show this help"),
      Line(System, "  /models - List available models"),
      Line(System, "  /session - Show session info"),
      Line(System, "  q or ctrl+c - Exit") ]

  /** The `/models` listing; the marker of the current model is part of the text. */
  const ModelLines: seq<Line> :=
    [ Line(System, "Available models:"),
      Line(System, "  • claude-sonnet-4 (current)"),
      Line(System, "  • claude-opus-4"),
      Line(System, "  • gpt-5"),
      Line(System, "  • gpt-4.1"),
      Line(System, "  • o4-mini") ]

  /** The second line of the listing names `claude-sonnet-4` as the current model. */
  lemma ModelsMarksCurrent()
    ensures Contains(ModelLines[1].content, "claude-sonnet-4 (current)")
  {
    var line := ModelLines[1].content;
    assert line == "  • " + "claude-sonnet-4 (current)";
    ContainsSuffix("  • ", "claude-sonnet-4 (current)");
  }

  /** The `/session` report: one system line per field of the record. */
  function SessionLines(s: SessionInfo): (r: seq<Line>)
    ensures |r| == 4 && forall k :: 0 <= k < |r| ==> r[k].kind == System
    ensures Contains(r[0].content, s.sessionId) && Contains(r[1].content, s.workdir)
            && Contains(r[2].content, s.model) && Contains(r[3].content, s.approval)
  {
    ContainsSuffix("Session ID: ", s.sessionId);
    ContainsSuffix("Workdir: ", s.workdir);
    ContainsSuffix("Model: ", s.model);
    ContainsSuffix("Approval: ", s.approval);
    [ Line(System, "Session ID: " + s.sessionId),
      Line(System, "Workdir: " + s.workdir),
      Line(System, "Model: " + s.model),
      Line(System, "Approval: " + s.approval) ]
  }

  /** The lines a directive appends right after the echo. `/session` reports the
      session record it is given; `/models` marks `claude-sonnet-4` as current. */
  function DirectiveLines(d: Directive, s: SessionInfo): (r: seq<Line>)
    ensures forall k :: 0 <= k < |r| ==> r[k].kind == System
    ensures d == Help ==> |r| == 6
    ensures d == Models ==> |r| == 6 && Contains(r[1].content, "claude-sonnet-4 (current)")
    ensures d == ShowSession ==> |r| == 4
    ensures d == ShowSession ==>
              (Contains(r[0].content, s.sessionId) && Contains(r[1].content, s.workdir)
               && Contains(r[2].content, s.model) && Contains(r[3].content, s.approval))
    ensures d == Quit ==> r == [Line(System, "Goodbye!")]
    ensures d == Clear || d == Request ==> r == []
  {
    match d
    case Help => HelpLines
    case Models =>
      ModelsMarksCurrent();
      ModelLines
    case ShowSession => SessionLines(s)
    case Quit => [Line(System, "Goodbye!")]
    case Clear => []
    case Request => []
  }

  /** The transcript right after `handleCommand(cmd)` returns. Every path first
      echoes the command at the end of the transcript; `/clear` then empties the
      whole transcript, the echo included. */
  function Dispatch(lines: seq<Line>, cmd: string, s: SessionInfo): (r: seq<Line>)
    ensures Classify(cmd) == Clear ==> r == []
    ensures Classify(cmd) != Clear ==>
              |r| == |lines| + 1 + |DirectiveLines(Classify(cmd), s)|
              && r[..|lines|] == lines && r[|lines|] == Echo(cmd)
    ensures Classify(cmd) != Clear ==> r[|lines| + 1..] == DirectiveLines(Classify(cmd), s)
    ensures Classify(cmd) == Request ==> r == lines + [Echo(cmd)]
  {
    var echoed := lines + [Echo(cmd)];
    match Classify(cmd)
    case Clear => []
    case d => echoed + DirectiveLines(d, s)
  }

  // ---------------------------------------------------------------------------
  // The simulated response
  // ---------------------------------------------------------------------------

  /** The canned batch a request gets, chosen by the first matching rule. */
  datatype Category = Diagnose | Explain | General

  /** Case-insensitive priority match: `brainstorm` or `fix`, then `explain`, then the default. */
  function CategoryOf(cmd: string): Category {
    var low := Lower(cmd);
    if Contains(low, "brainstorm") || Contains(low, "fix") then Diagnose
    else if Contains(low, "explain") then Explain
    else General
  }

  /** The choice depends on the letters only, not on their case. */
  lemma CategoryIgnoresCase(cmd: string)
    ensures CategoryOf(Lower(cmd)) == CategoryOf(cmd)
  {
    LowerIdempotent(cmd);
  }

  /** A keyword anywhere in the command, written in any mix of cases, decides
      the batch: `fix` or `brainstorm` always gives the diagnosing batch, and
      `explain` never gets the default one. */
  lemma KeywordInAnyCase(a: string, w: string, b: string)
    ensures Lower(w) == "fix" || Lower(w) == "brainstorm" ==> CategoryOf(a + w + b) == Diagnose
    ensures Lower(w) == "explain" ==> CategoryOf(a + w + b) != General
  {
    LowerAppend(a + w, b);
    LowerAppend(a, w);
    ContainsMiddle(Lower(a), Lower(w), Lower(b));
  }

  /** An example: upper-case letters do not hide a keyword, so "FIX" gets the
      diagnosing batch (the instance `KeywordInAnyCase("", "FIX", "")`, checked by hand). */
  lemma UpperCaseFixIsDiagnosed()
    ensures CategoryOf("FIX") == Diagnose
  {
    var low := Lower("FIX");
    assert low[0] == 'f' && low[1] == 'i' && low[2] == 'x';
    assert low == "fix";
    assert StartsWith(low, "fix");
  }

  /** The batch for a request mentioning `brainstorm` or `fix`. */
  const DiagnoseBatch: seq<Line> :=
    [ Line(System, "● I'll search for information about this issue and brainstorm potential fixes."),
      Line(Success, "Fetch(https://github.com/anthropics/claude-code/issues/427)..."),
      Line(System, "└ Received 286.3KB (200 OK)"),
      Line(System, "● Let me brainstorm potential fixes for implementing these prompt guidelines enforcement features in Claude CLI."),
      Line(Success, "Search(pattern: \"**/utils/permissions/**\")...") ]

  /** The batch for a request mentioning `explain`. */
  const ExplainBatch: seq<Line> :=
    [ Line(System, "● I'll analyze this codebase and explain its structure and functionality."),
      Line(Success, "Analyzing project structure..."),
      Line(System, "This appears to be a web-based terminal interface for AI code assistance.") ]

  /** The lines of each canned batch; the default one quotes the command. */
  function Batch(c: Category, cmd: string): (r: seq<Line>)
    ensures c == Diagnose ==> |r| == 5
    ensures c == Explain ==> |r| == 3
    ensures c == General ==> |r| == 2 && Contains(r[0].content, "\"" + cmd + "\"")
    ensures forall k :: 0 <= k < |r| ==> r[k].kind == System || r[k].kind == Success
  {
    match c
    case Diagnose => DiagnoseBatch
    case Explain => ExplainBatch
    case General =>
      var quoted := "\"" + cmd + "\"";
      ContainsSuffix("● Processing: ", quoted);
      [ Line(System, "● Processing: " + quoted),
        Line(System, "How can I help you with your code today?") ]
  }

  /** The batch a completed request appends: five lines when diagnosing, three
      when explaining, otherwise two that quote the command back. */
  function Response(cmd: string): (r: seq<Line>)
    ensures CategoryOf(cmd) == Diagnose ==> |r| == 5
    ensures CategoryOf(cmd) == Explain ==> |r| == 3
    ensures CategoryOf(cmd) == General ==> |r| == 2 && Contains(r[0].content, "\"" + cmd + "\"")
    ensures forall k :: 0 <= k < |r| ==> r[k].kind == System || r[k].kind == Success
  {
    Batch(CategoryOf(cmd), cmd)
  }

  // ---------------------------------------------------------------------------
  // The component's state
  // ---------------------------------------------------------------------------

  class Session {
    const title: string
    /** `sessionInfo`: the source never calls its setter, so it is a constant here. */
    const info: SessionInfo
    /** `lines`: the transcript. */
    var lines: seq<Line>
    /** `currentInput`: the text in the input box. */
    var input: string
    /** `isThinking`: a simulated request is in flight and the input box is disabled. */
    var thinking: bool
    /** The command captured by the pending completion, if any. */
    var pending: Option<string>

    /** A request is in flight exactly when the session is thinking; the command
        it carries was a dispatchable request; and the disabled input box is empty. */
    ghost predicate Valid()
      reads this
    {
      (thinking <==> pending.Some?)
      && (thinking ==> input == [] && IsCommand(pending.value) && Classify(pending.value) == Request)
    }

    /** The initial state: the welcome lines followed by `initialLines`, idle. */
    constructor (title: string := DefaultTitle, initialLines: seq<Line> := [])
      ensures Valid()
      ensures this.title == title && info == DefaultSession
      ensures lines == WelcomeLines(title) + initialLines
      ensures input == [] && !thinking && pending == None
    {
      this.title := title;
      info := DefaultSession;
      lines := WelcomeLines(title) + initialLines;
      input := [];
      thinking := false;
      pending := None;
    }

    /** `addLine`: append one line at the end. */
    method AddLine(kind: LineKind, content: string)
      modifies this`lines
      ensures lines == old(lines) + [Line(kind, content)]
    {
      lines := lines + [Line(kind, content)];
    }

    /** Typing in the input box; a disabled box takes no input. */
    method SetInput(text: string)
      requires Valid()
      modifies this`input
      ensures Valid()
      ensures input == if thinking then old(input) else text
    {
      if !thinking {
        input := text;
      }
    }

    /** `handleCommand`: echo, clear the input box, then dispatch. */
    method HandleCommand(cmd: string)
      requires Valid() && !thinking && IsCommand(cmd)
      modifies this
      ensures Valid()
      ensures lines == Dispatch(old(lines), cmd, info)
      ensures input == []
      ensures thinking == (Classify(cmd) == Request)
      ensures pending == if thinking then Some(cmd) else None
    {
      AddLine(Input, "> " + cmd);
      input := [];
      var d := Classify(cmd);
      if d == Clear {
        lines := [];
        return;
      }
      if d != Request {
        lines := lines + DirectiveLines(d, info);
        return;
      }
      thinking := true;
      pending := Some(cmd);
    }

    /** The timer firing: leave the busy phase and append the batch for the
        command captured when it began. */
    method Complete()
      requires Valid() && thinking
      modifies this
      ensures Valid()
      ensures !thinking && pending == None
      ensures lines == old(lines) + Response(old(pending).value)
      ensures input == old(input)
    {
      var cmd := pending.value;
      thinking := false;
      pending := None;
      lines := lines + Response(cmd);
    }

    /** `handleKeyPress`: Enter dispatches the trimmed input when it is not blank.
        While thinking the box is disabled and no key reaches it. Returns the
        dispatched command, if any. */
    method KeyPress(key: string) returns (dispatched: Option<string>)
      requires Valid()
      modifies this
      ensures Valid()
      ensures dispatched == if !old(thinking) && key == "Enter" && Trim(old(input)) != []
                            then Some(Trim(old(input))) else None
      ensures dispatched == None ==>
                lines == old(lines) && input == old(input) && thinking == old(thinking) && pending == old(pending)
      ensures dispatched.Some? ==>
                lines == Dispatch(old(lines), dispatched.value, info) && input == []
                && thinking == (Classify(dispatched.value) == Request)
                && pending == (if thinking then dispatched else None)
    {
      dispatched := None;
      if !thinking && key == "Enter" {
        var cmd := Trim(input);
        if cmd != [] {
          HandleCommand(cmd);
          dispatched := Some(cmd);
        }
      }
    }
  }

  /** Two steps of a session: a request is busy after dispatch, and its completion
      leaves exactly the echo followed by the batch chosen for it. */
  method RequestRoundTrip(s: Session, cmd: string)
    requires s.Valid() && !s.thinking && IsCommand(cmd) && Classify(cmd) == Request
    modifies s
    ensures s.Valid() && !s.thinking
    ensures s.lines == old(s.lines) + [Echo(cmd)] + Response(cmd)
  {
    s.HandleCommand(cmd);
    s.Complete();
  }
}
