# Claude Web Buddy: the interactive components, in Dafny

This project models the logic behind the four interactive panels of Claude Web
Buddy, a browser front end that imitates a coding assistant. It then proves
what each panel promises.

- **Terminal** (`Terminal.dfy`, class `Terminal.Session`) holds a transcript of
  lines, the text in the input box, a busy ("thinking") flag and the one
  simulated request in flight. A submitted command is first echoed as
  `> cmd`. The exact directives `/clear`, `/help`, `/models`, `/session`, `q`
  and `exit` are answered at once. Any other text makes the session busy. A
  later completion step ends the busy phase and appends one canned batch. The
  batch is chosen by a case-insensitive keyword rule: `brainstorm` or `fix`
  first, then `explain`, then a default batch that quotes the command.
- **Chat** (`Chat.dfy`, class `Chat.ChatPanel`) is a message list that only
  grows. Sending is guarded by a loading flag. An accepted send appends the
  user's text. The completion step appends a reply quoting that text.
- **Code editor** (`Editor.dfy`, class `Editor.CodeEditor`) is a list of open
  files and the id of the active one. Edits and language changes rewrite
  every entry with the active id. A new untitled file is appended and made
  active. The line-number gutter and the status-bar line count come from
  splitting the content at line breaks.
- **File manager** (`Files.dfy`, class `Files.FileManager`) is a tree of files
  and folders, the set of expanded folders, a search query and a dialog that
  creates root-level items. The tree view is one recursive rule. An item is
  drawn when its name matches the query. The children of a drawn folder are
  considered only while that folder is expanded.

`Text.dfy` gives the JavaScript string operations these panels rely on:
- `trim`, with the ECMAScript white-space and line-terminator set;
- `toLowerCase`, on ASCII letters;
- `includes`;
- `split` on one character;
- the decimal rendering of a number.

`Wrappers.dfy` holds `Option`.

The code behaves as follows, and the model does the same:
- After `q` or `exit` the terminal prints `Goodbye!` and stays idle, still taking input. There is no "ended" state.
- No batch exists for `code`, `debug` or `review`. Only the three categories above are modelled.
- The terminal's session record is never replaced, because its setter is never called. `/models` marks `claude-sonnet-4` as current by a fixed literal, whatever the record says.
- Unknown `/`-prefixed commands are not rejected. They become simulated requests like free text.
- Ids come from the clock and are not unique. With duplicate ids, an editor update turns every entry with the active id into a copy of the first one, with the new field. The model does exactly this and claims no uniqueness.

Timers and the clock are the only sources of nondeterminism. Each timer
callback is an explicit `Complete` step. Each clock-based id is a method
parameter. A disabled input box accepts no events, so while a panel is busy or
loading, typing and Enter change nothing.

## Model

| member | source | states |
|---|---|---|
| Terminal.WelcomeLines | src/components/terminal/Terminal.tsx:20-38 | exactly three lines: a system banner naming the title, then two success lines |
| Terminal.Session.constructor | src/components/terminal/Terminal.tsx:16-49 | the transcript is the welcome lines followed by the given initial lines, in order; the box is empty; the session is idle with nothing pending; the session record is the fixed one; the title defaults to `Claude Web Buddy Terminal` and the initial lines to none |
| Terminal.Echo | src/components/terminal/Terminal.tsx:78 | the echo is an input line reading `> ` followed by the command, unchanged |
| Terminal.IsCommand | src/components/terminal/Terminal.tsx:146-147 | the definition of what the Enter handler hands to `handleCommand`: trimmed and non-empty; Session.KeyPress and Session.HandleCommand state how it is used |
| Terminal.Classify | src/components/terminal/Terminal.tsx:82-118 | matching is exact and case-sensitive: each of `/clear`, `/help`, `/models` and `/session` iff its own directive, `q` or `exit` iff Quit, and a command becomes a simulated request iff it is none of the six |
| Terminal.UnknownSlashIsRequest | src/components/terminal/Terminal.tsx:82-121 | a `/` command other than the four slash directives is treated as a request, not rejected |
| Terminal.SessionLines | src/components/terminal/Terminal.tsx:107-113 | four system lines carrying, in order, the id, workdir, model and approval of the record |
| Terminal.DirectiveLines | src/components/terminal/Terminal.tsx:87-118 | every line is a system line; `/help` and `/models` give 6 lines, `/session` 4 and `q`/`exit` the single line `Goodbye!`; `/models` marks `claude-sonnet-4 (current)`; the `/session` lines carry the id, workdir, model and approval of the record |
| Terminal.ModelsMarksCurrent | src/components/terminal/Terminal.tsx:99 | the second line of the `/models` listing names `claude-sonnet-4` as current |
| Terminal.Dispatch | src/components/terminal/Terminal.tsx:76-121 | `/clear` leaves an empty transcript, the echo included; on every other command the old transcript is an unchanged prefix, the echo comes right after it, and after the echo come exactly the directive's lines (DirectiveLines), so `q`/`exit` adds `Goodbye!`; a request adds nothing more |
| Terminal.CategoryIgnoresCase | src/components/terminal/Terminal.tsx:128-134 | the batch choice depends on the lower-cased command only |
| Terminal.CategoryOf | src/components/terminal/Terminal.tsx:128-134 | the definition of the batch choice (brainstorm or fix, then explain, then the default, on the lower-cased command); its properties are stated by CategoryIgnoresCase and KeywordInAnyCase |
| Terminal.KeywordInAnyCase | src/components/terminal/Terminal.tsx:128-134 | a word that lowers to `fix` or `brainstorm`, anywhere in a command and in any mix of cases, selects the diagnosing batch; one that lowers to `explain` never gets the default batch |
| Terminal.UpperCaseFixIsDiagnosed | src/components/terminal/Terminal.tsx:128 | an example of KeywordInAnyCase: `FIX` in capitals still selects the diagnosing batch |
| Terminal.Batch | src/components/terminal/Terminal.tsx:128-141 | the diagnosing batch has 5 lines and the explaining batch 3; the default batch has 2 lines, the first quoting the command; every line is system or success |
| Terminal.Response | src/components/terminal/Terminal.tsx:127-141 | the completed request gets 5, 3 or 2 lines according to its category, and the 2-line default quotes the command |
| Terminal.Session.AddLine | src/components/terminal/Terminal.tsx:66-74 | one line is appended at the end and nothing else changes |
| Terminal.Session.SetInput | src/components/terminal/Terminal.tsx:219-223 | typing replaces the box's text, except while thinking, when the disabled box keeps it |
| Terminal.Session.HandleCommand | src/components/terminal/Terminal.tsx:76-124 | the new transcript is Dispatch of the old one; the box is cleared; the session is thinking, carrying the command, exactly when the command is a request |
| Terminal.Session.Complete | src/components/terminal/Terminal.tsx:124-142 | thinking ends, nothing stays pending, and the batch for the captured command is appended after the unchanged transcript |
| Terminal.Session.KeyPress | src/components/terminal/Terminal.tsx:145-149 | a command is dispatched iff the session is idle, the key is Enter and the trimmed box is non-blank; it is the trimmed text; otherwise nothing changes |
| Terminal.RequestRoundTrip | src/components/terminal/Terminal.tsx:76-142 | a request followed by its completion appends exactly its echo and then its batch, and leaves the session idle |
| Chat.ChatPanel.constructor | src/components/chat/ChatInterface.tsx:21-31 | the panel starts with the assistant greeting alone, an empty box, `claude-sonnet-4` selected and nothing loading |
| Chat.AcceptsIff | src/components/chat/ChatInterface.tsx:44 | the guard (a non-whitespace character, nothing loading) holds iff the trimmed input is non-empty and no reply is loading |
| Chat.Accepts | src/components/chat/ChatInterface.tsx:44 | the definition of the send guard (not all whitespace, nothing loading); AcceptsIff proves it equal to the `trim()` test of the source |
| Chat.Reply | src/components/chat/ChatInterface.tsx:59-64 | the reply is an assistant message quoting the request verbatim |
| Chat.SendKeepsDialogue | src/components/chat/ChatInterface.tsx:46-53 | appending a user message to a conversation awaiting input keeps it a dialogue: the greeting, then user messages each followed by the reply that quotes it |
| Chat.CompleteKeepsDialogue | src/components/chat/ChatInterface.tsx:58-66 | with a reply pending, the last message is the user's, and appending the reply quoting it keeps the dialogue shape |
| Chat.ChatPanel.SetInput | src/components/chat/ChatInterface.tsx:170-177 | typing replaces the box's text, except while loading |
| Chat.ChatPanel.SelectModel | src/components/chat/ChatInterface.tsx:95-106 | the selected model becomes one of the five offered |
| Chat.ChatPanel.Send | src/components/chat/ChatInterface.tsx:43-55 | a send happens iff the guard accepts; it appends exactly one user message holding the untrimmed input, clears the box and starts loading with that text captured; a refused send changes nothing |
| Chat.ChatPanel.Complete | src/components/chat/ChatInterface.tsx:58-67 | exactly one reply, quoting the text captured at send time, is appended after the unchanged messages, and loading stops |
| Chat.ChatPanel.KeyPress | src/components/chat/ChatInterface.tsx:70-75 | a message is sent iff the key is Enter without Shift and the guard accepts |
| Editor.InitialFiles | src/components/editor/CodeEditor.tsx:24-46 | the given files when there are any, otherwise the default `example.js` alone; never empty |
| Editor.CodeEditor.constructor | src/components/editor/CodeEditor.tsx:24-48 | the first file is active and the selector shows JavaScript; the invariant holds: the list is non-empty and the active id names an open file |
| Editor.FindIndex | src/components/editor/CodeEditor.tsx:53 | the position of the first file carrying the id, or none when no file carries it |
| Editor.FindIndexSameIds | src/components/editor/CodeEditor.tsx:53 | lookup depends on the ids alone |
| Editor.Find | src/components/editor/CodeEditor.tsx:53 | `files.find`: a found file carries the id and is the first file that does, no earlier file carrying it; nothing is found iff no file carries the id |
| Editor.CodeEditor.ActiveFile | src/components/editor/CodeEditor.tsx:53 | `activeFile`: a found file is the first open file carrying the active id; under the editor invariant it is always found |
| Editor.ReplaceById | src/components/editor/CodeEditor.tsx:59 | the `map` replaces exactly the entries carrying the id and keeps the others, the length and the order; with an update of the same id the ids stay as they were |
| Editor.CodeChanged | src/components/editor/CodeEditor.tsx:53-59 | with no active file nothing changes; otherwise every entry with the active id becomes a copy of the first match with the new content and the modified mark, whatever its own name and language were; other entries, length and order stay; the active file afterwards is the old one with the new content, modified |
| Editor.LanguageChanged | src/components/editor/CodeEditor.tsx:53-68 | with no active file nothing changes; otherwise every entry with the active id becomes a copy of the first match with the new language; other entries stay; the active file keeps its content and modified mark |
| Editor.CodeEditor.CodeChange | src/components/editor/CodeEditor.tsx:55-61 | the files become CodeChanged of the old ones; because the active id always names an open file, the early return never happens and the updated active file is always handed out |
| Editor.CodeEditor.LanguageChange | src/components/editor/CodeEditor.tsx:63-69 | the selector always takes the language; the files become LanguageChanged of the old ones; the active id still names an open file |
| Editor.UntitledNameInjective | src/components/editor/CodeEditor.tsx:109 | different file counts give different `untitled-n.js` names |
| Editor.UntitledName | src/components/editor/CodeEditor.tsx:109 | the definition of the `untitled-${files.length + 1}.js` template; NewFile and UntitledNameInjective state its properties |
| Editor.NewFile | src/components/editor/CodeEditor.tsx:107-113 | the new file is named `untitled-(count+1).js`, is JavaScript, holds `// New file` and a line break, and is unmodified |
| Editor.NewFileBecomesActive | src/components/editor/CodeEditor.tsx:106-116 | when the new id is not already open, the active file after creation is exactly the new file |
| Editor.CodeEditor.CreateNewFile | src/components/editor/CodeEditor.tsx:106-116 | exactly one file is appended after the unchanged list, and its id becomes the active one, which names an open file |
| Editor.CodeEditor.SelectTab | src/components/editor/CodeEditor.tsx:189-196 | clicking a tab makes that file's id the active one, and the active file exists |
| Editor.LineNumbers | src/components/editor/CodeEditor.tsx:118-121 | the numbers 1 to k in order, where k is one more than the number of line breaks |
| Editor.StatusLineCount | src/components/editor/CodeEditor.tsx:257 | the status-bar line count equals the length of the gutter, and is at least 1 |
| Files.FileManager.constructor | src/components/files/FileManager.tsx:37-96 | the sample tree, only folder `1` expanded, no query, an empty closed dialog set to File |
| Files.Toggle | src/components/files/FileManager.tsx:99-107 | the id flips membership and no other id moves |
| Files.ToggleTwice | src/components/files/FileManager.tsx:98-108 | toggling twice restores the set |
| Files.FileManager.ToggleFolder | src/components/files/FileManager.tsx:98-108 | the expanded set becomes Toggle of the old one |
| Files.FileManager.FileSelect | src/components/files/FileManager.tsx:110-116 | a file is handed to the selection listener and the expanded set is unchanged; a folder toggles its expansion |
| Files.NewItem | src/components/files/FileManager.tsx:121-129 | the item carries the name as typed; a file has size 0 and empty content, a folder an empty children list |
| Files.Matches | src/components/files/FileManager.tsx:160-163 | the definition of the search filter (empty query, or the lowered name includes the lowered query); RenderIsVisibility and NewItemShownLast state its effect on the drawn rows |
| Files.ShowsChildren | src/components/files/FileManager.tsx:211-213 | the definition of when a folder's children are drawn (a folder with a children list whose id is expanded); CollapsedRootHidesDescendants states its effect |
| Files.RenderFrom | src/components/files/FileManager.tsx:158-219 | the definition of `renderFileTree` over a list; RenderFromSound, RenderFromComplete and RenderFromAppend state its properties |
| Files.RenderItem | src/components/files/FileManager.tsx:164-218 | the definition of one entry of `renderFileTree` (its row, then its children's rows); RenderItemSound and RenderItemComplete state its properties |
| Files.Render | src/components/files/FileManager.tsx:291 | the definition of the whole tree as drawn; RenderIsVisibility proves it draws exactly the visible positions |
| Files.FileManager.CreateNewItem | src/components/files/FileManager.tsx:118-137 | a name that is all white space (so trims to nothing) changes nothing; otherwise exactly one new item is appended at the root and handed out, the name is cleared and the dialog closes |
| Files.FileManager.NameKeyPress | src/components/files/FileManager.tsx:262 | Enter in the name box creates as above; any other key changes nothing |
| Files.FileManager.SetQuery | src/components/files/FileManager.tsx:279-284 | the query becomes the typed text |
| Files.FileManager.SetNewName | src/components/files/FileManager.tsx:258-261 | the dialog's name becomes the typed text, untrimmed |
| Files.FileManager.SetDialogOpen | src/components/files/FileManager.tsx:228-234 | the dialog opens or closes as asked |
| Files.FileManager.SetNewKind | src/components/files/FileManager.tsx:241-256 | the dialog's kind becomes the chosen one |
| Files.RenderFromSound | src/components/files/FileManager.tsx:158-219 | every row drawn from a list sits below that list's position, at a visible position that holds exactly the drawn item |
| Files.RenderItemSound | src/components/files/FileManager.tsx:164-217 | every row one entry draws is the entry itself or a visible position below it, and that position holds the drawn item |
| Files.RenderFromComplete | src/components/files/FileManager.tsx:158-219 | every visible position in a list is drawn, with its item |
| Files.RenderItemComplete | src/components/files/FileManager.tsx:164-217 | every position visible relative to an entry is drawn by that entry |
| Files.RenderIsVisibility | src/components/files/FileManager.tsx:158-219 | a row is drawn iff its position is visible: it matches the query, and each ancestor matches and is an expanded folder with children |
| Files.NonMatchingRootHidesSubtree | src/components/files/FileManager.tsx:159-163 | a root item whose name does not match hides itself and everything below it |
| Files.CollapsedRootHidesDescendants | src/components/files/FileManager.tsx:211-217 | a collapsed root folder shows none of its descendants |
| Files.RenderFromAppend | src/components/files/FileManager.tsx:132 | appending a root item keeps every existing row and draws the new item's rows last |
| Files.NewItemShownLast | src/components/files/FileManager.tsx:118-137 | a created item is the last row when its name matches the query and is hidden otherwise; the rows above are unchanged |
| Files.FooterCount | src/components/files/FileManager.tsx:298 | the footer shows the number of root-level items, which never exceeds the number of items in the whole tree |
| Files.InitialCounts | src/components/files/FileManager.tsx:44-96 | an illustration of the footer counting root items only: for the sample tree it shows 1 while the tree holds 6 |
| Text.Trim | src/components/terminal/Terminal.tsx:146 | the result starts and ends with a non-whitespace character, or is empty |
| Text.IsWhitespace | src/components/terminal/Terminal.tsx:146 | the definition of the code points `trim` removes (the WhiteSpace and LineTerminator sets of ECMA-262); TrimEmptyIff and TrimCutsWhitespace state its role |
| Text.TrimEmptyIff | src/components/chat/ChatInterface.tsx:44 | the trimmed text is empty iff the text is all white space |
| Text.TrimIsSlice | src/components/terminal/Terminal.tsx:146 | the input is what is cut from the front, then the trimmed text, then what is cut from the back |
| Text.TrimCutsWhitespace | src/components/terminal/Terminal.tsx:146 | what is cut from either end is white space only |
| Text.TrimIdempotent | src/components/terminal/Terminal.tsx:146-147 | trimming twice is trimming once |
| Text.Lower | src/components/files/FileManager.tsx:162 | same length; every character is lowered one by one: an upper-case ASCII letter becomes its lower-case letter and every other character is kept |
| Text.LowerChar | src/components/terminal/Terminal.tsx:128 | per-character `toLowerCase` on ASCII: an upper-case letter becomes the lower-case one 32 code points above it, every other character is kept, and no result is upper case |
| Text.LowerAppend | src/components/terminal/Terminal.tsx:128 | lower-casing distributes over concatenation |
| Text.ContainsIff | src/components/files/FileManager.tsx:162 | `includes` holds iff the query occurs at some position |
| Text.Contains | src/components/files/FileManager.tsx:162 | the definition of `String.prototype.includes`; ContainsIff and ContainsMiddle state its properties |
| Text.ContainsMiddle | src/components/terminal/Terminal.tsx:139 | a text placed between two others is found in the whole |
| Text.Split | src/components/editor/CodeEditor.tsx:119 | one more part than separators, no part holding the separator |
| Text.JoinSplit | src/components/editor/CodeEditor.tsx:119 | joining the parts with the separator gives back the text |
| Text.SplitJoin | src/components/editor/CodeEditor.tsx:119 | splitting a join of separator-free parts gives back the parts |
| Text.NatToString | src/components/editor/CodeEditor.tsx:109 | a non-empty digit string with no leading zero |
| Text.DecimalRoundTrip | src/components/editor/CodeEditor.tsx:109 | reading the digits back gives the number |
| Text.NatToStringInjective | src/components/editor/CodeEditor.tsx:109 | different numbers give different digit strings |

## Left out

- The clock is not modelled: `Date.now()` ids are parameters, and timestamps and modification dates are not kept. No id is assumed unique.
- `setTimeout` delays and `Math.random()` are not modelled. Each timer callback is the explicit `Complete` step, taken once after its send.
- Scrolling, focus and `preventDefault` are left out. So are JSX rendering, styling, indentation and the line colour and prefix helpers of the terminal.
- The copy-to-clipboard, download and toast actions of the editor are left out, because they are browser I/O.
- The regex-based `syntaxHighlight` and the editor's code/preview view mode are left out. The first has semantics that live in the JavaScript regex engine, and the second is display only.
- `formatFileSize` uses floating-point `Math.log` and `toFixed`, and `formatDate`/`formatTime` depend on the locale; all three are left out.
- The Rename, Duplicate, Download and Delete menu items of the file tree have no handlers, so nothing is modelled for them.
- The listeners `onFileChange`, `onFileSelect` and `onFileCreate` are not called. What they would receive is returned by the method instead. `onCodeGenerated` is never called by the chat panel.
- Text.Lower: only ASCII letters are lowered. The model does not capture Unicode case mapping.
- Text.LowerChar: the same restriction to ASCII letters, one character at a time.
- src/pages/Index.tsx is not part of this model. It is a static layout.
- The terminal's Ctrl+C hint is not modelled, because no key handler for it exists.
