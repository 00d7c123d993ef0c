/** The code editor: a list of open files, the id of the active one and the
    language shown in the selector. Edits and language changes rewrite every
    entry carrying the active id; a new file is appended and made active. */
module Editor {
  import opened Wrappers
  import opened Text

  datatype CodeFile = CodeFile(id: string, name: string, language: string, content: string, isModified: bool)

  const WelcomeCode: string :=
    "// Welcome to Claude Web Buddy Code Editor\n// Start coding with AI assistance!\n\nfunction greetUser(name) {\n  console.log(`Hello, ${name}! Ready to code?`);\n}\n\ngreetUser('Developer');\n\n// Try asking the AI to:\n// - Generate functions\n// - Review your code\n// - Fix bugs\n// - Add documentation\n// - Convert between languages"

  /** The file shown when the host passes no files. */
  const DefaultFile: CodeFile := CodeFile("1", "example.js", "javascript", WelcomeCode, false)

  /** The initial `files`: the given ones if there are any, else the default file alone. */
  function InitialFiles(given: seq<CodeFile>): (r: seq<CodeFile>)
    ensures |r| >= 1
    ensures given != [] ==> r == given
    ensures given == [] ==> r == [DefaultFile]
  {
    if |given| > 0 then given else [DefaultFile]
  }

  // ---------------------------------------------------------------------------
  // Lookup by id: `files.find(f => f.id === id)`
  // ---------------------------------------------------------------------------

  /** The position of the first file with the given id. */
  function FindIndex(files: seq<CodeFile>, id: string): (r: Option<nat>)
    ensures r.Some? ==> r.value < |files| && files[r.value].id == id
                        && forall j :: 0 <= j < r.value ==> files[j].id != id
    ensures r.None? ==> forall j :: 0 <= j < |files| ==> files[j].id != id
    decreases |files|
  {
    if files == [] then None
    else if files[0].id == id then Some(0)
    else match FindIndex(files[1..], id)
      case None => None
      case Some(k) => Some(k + 1)
  }

  /** The first file with the given id, if any. */
  function Find(files: seq<CodeFile>, id: string): (r: Option<CodeFile>)
    ensures r.Some? ==> r.value.id == id && r.value in files
    ensures r.None? <==> forall j :: 0 <= j < |files| ==> files[j].id != id
    ensures r.Some? ==> exists i :: 0 <= i < |files| && files[i] == r.value
                                    && forall j :: 0 <= j < i ==> files[j].id != id
  {
    match FindIndex(files, id)
    case None => None
    case Some(k) => Some(files[k])
  }

  predicate SameIds(a: seq<CodeFile>, b: seq<CodeFile>) {
    |a| == |b| && forall k :: 0 <= k < |a| ==> a[k].id == b[k].id
  }

  /** Lookup depends on the ids alone, so rewriting other fields keeps every first match where it was. */
  lemma {:induction false} FindIndexSameIds(a: seq<CodeFile>, b: seq<CodeFile>, id: string)
    requires SameIds(a, b)
    ensures FindIndex(a, id) == FindIndex(b, id)
    decreases |a|
  {
    if a != [] && a[0].id != id {
      FindIndexSameIds(a[1..], b[1..], id);
    }
  }

  /** `prev.map(f => f.id === id ? updated : f)`. */
  function ReplaceById(files: seq<CodeFile>, id: string, updated: CodeFile): (r: seq<CodeFile>)
    ensures |r| == |files|
    ensures forall k :: 0 <= k < |files| && files[k].id != id ==> r[k] == files[k]
    ensures forall k :: 0 <= k < |files| && files[k].id == id ==> r[k] == updated
    ensures updated.id == id ==> SameIds(files, r)
  {
    seq(|files|, k requires 0 <= k < |files| => if files[k].id == id then updated else files[k])
  }

  // ---------------------------------------------------------------------------
  // The list operations behind the handlers
  // ---------------------------------------------------------------------------

  /** The files after `handleCodeChange(content)`. With no active file nothing
      changes. Otherwise every entry with the active id becomes the active file
      (the first match) with the new content, marked modified; the rest, the
      length and the order stay as they were. */
  function CodeChanged(files: seq<CodeFile>, activeId: string, content: string): (r: seq<CodeFile>)
    ensures |r| == |files|
    ensures Find(files, activeId) == None ==> r == files
    ensures forall k :: 0 <= k < |files| && files[k].id != activeId ==> r[k] == files[k]
    ensures forall k :: 0 <= k < |files| && files[k].id == activeId ==>
              r[k].id == activeId && r[k].content == content && r[k].isModified
    ensures Find(files, activeId).Some? ==>
              forall k :: 0 <= k < |files| && files[k].id == activeId ==>
                r[k] == Find(files, activeId).value.(content := content, isModified := true)
    ensures Find(files, activeId).Some? ==>
              var f := Find(files, activeId).value;
              Find(r, activeId) == Some(CodeFile(activeId, f.name, f.language, content, true))
  {
    match Find(files, activeId)
    case None => files
    case Some(f) =>
      var r := ReplaceById(files, activeId, f.(content := content, isModified := true));
      FindIndexSameIds(files, r, activeId);
      r
  }

  /** The files after `handleLanguageChange(language)`: every entry with the
      active id becomes the active file with the new language, its content and
      modified flag kept; nothing changes when there is no active file. */
  function LanguageChanged(files: seq<CodeFile>, activeId: string, language: string): (r: seq<CodeFile>)
    ensures |r| == |files|
    ensures Find(files, activeId) == None ==> r == files
    ensures forall k :: 0 <= k < |files| && files[k].id != activeId ==> r[k] == files[k]
    ensures forall k :: 0 <= k < |files| && files[k].id == activeId ==>
              r[k].id == activeId && r[k].language == language
    ensures Find(files, activeId).Some? ==>
              forall k :: 0 <= k < |files| && files[k].id == activeId ==>
                r[k] == Find(files, activeId).value.(language := language)
    ensures Find(files, activeId).Some? ==>
              var f := Find(files, activeId).value;
              Find(r, activeId) == Some(CodeFile(activeId, f.name, language, f.content, f.isModified))
  {
    match Find(files, activeId)
    case None => files
    case Some(f) =>
      var r := ReplaceById(files, activeId, f.(language := language));
      FindIndexSameIds(files, r, activeId);
      r
  }

  /** The name `createNewFile` gives when `count` files are open. */
  function UntitledName(count: nat): string {
    "untitled-" + NatToString(count + 1) + ".js"
  }

  /** Different counts give different names. */
  lemma UntitledNameInjective(m: nat, n: nat)
    requires UntitledName(m) == UntitledName(n)
    ensures m == n
  {
    var a, b := UntitledName(m), UntitledName(n);
    assert a[9..|a| - 3] == NatToString(m + 1);
    assert b[9..|b| - 3] == NatToString(n + 1);
    NatToStringInjective(m + 1, n + 1);
  }

  /** The file `createNewFile` appends: an unmodified JavaScript file holding one comment line. */
  function NewFile(id: string, count: nat): (f: CodeFile)
    ensures f.id == id && f.name == UntitledName(count)
    ensures f.language == "javascript" && f.content == "// New file\n" && !f.isModified
  {
    CodeFile(id, UntitledName(count), "javascript", "// New file\n", false)
  }

  /** When the clock gives an id no open file has, the new file is the one the
      editor then shows. */
  lemma {:induction false} NewFileBecomesActive(files: seq<CodeFile>, id: string)
    requires forall k :: 0 <= k < |files| ==> files[k].id != id
    ensures Find(files + [NewFile(id, |files|)], id) == Some(NewFile(id, |files|))
    decreases |files|
  {
    var all := files + [NewFile(id, |files|)];
    if files != [] {
      assert all[1..] == files[1..] + [NewFile(id, |files|)];
      NewFileBecomesActiveAt(files[1..], id, NewFile(id, |files|));
      assert FindIndex(all[1..], id) == Some(|files| - 1);
    }
  }

  lemma {:induction false} NewFileBecomesActiveAt(files: seq<CodeFile>, id: string, f: CodeFile)
    requires forall k :: 0 <= k < |files| ==> files[k].id != id
    requires f.id == id
    ensures FindIndex(files + [f], id) == Some(|files|)
    decreases |files|
  {
    if files != [] {
      assert (files + [f])[1..] == files[1..] + [f];
      NewFileBecomesActiveAt(files[1..], id, f);
    }
  }

  /** `getLineNumbers(content)`: the numbers 1 to k, where k is one more than the
      number of line breaks in the content. */
  function LineNumbers(content: string): (r: seq<nat>)
    ensures |r| == CountChar(content, '\n') + 1
    ensures forall i :: 0 <= i < |r| ==> r[i] == i + 1
  {
    var lines := Split(content, '\n');
    seq(|lines|, i requires 0 <= i < |lines| => i + 1)
  }

  /** The status bar's line count, `content.split('\n').length`: it always equals
      the number of entries in the line-number gutter. */
  function StatusLineCount(content: string): (n: nat)
    ensures n == |LineNumbers(content)|
    ensures n >= 1
  {
    |Split(content, '\n')|
  }

  // ---------------------------------------------------------------------------
  // The component's state
  // ---------------------------------------------------------------------------

  class CodeEditor {
    /** `files`: the open files, in tab order. */
    var files: seq<CodeFile>
    /** `activeFileId`. */
    var activeId: string
    /** `selectedLanguage`: what the language selector shows. */
    var selectedLanguage: string

    /** Files are never closed, so the list is never empty; and the active id
        always names an open file, so `activeFile` is always found. */
    ghost predicate Valid()
      reads this
    {
      |files| >= 1 && Find(files, activeId).Some?
    }

    /** `activeFile`: the first file carrying the active id. */
    function ActiveFile(): (r: Option<CodeFile>)
      reads this
      ensures r.Some? ==> r.value.id == activeId && r.value in files
      ensures r.Some? ==> exists i :: 0 <= i < |files| && files[i] == r.value
                                      && forall j :: 0 <= j < i ==> files[j].id != activeId
      ensures Valid() ==> r.Some?
    {
      Find(files, activeId)
    }

    /** The initial state: the given files (or the default one), the first of
        them active, JavaScript selected. */
    constructor (initialFiles: seq<CodeFile>)
      ensures Valid()
      ensures files == InitialFiles(initialFiles)
      ensures activeId == files[0].id && ActiveFile() == Some(files[0])
      ensures selectedLanguage == "javascript"
    {
      files := InitialFiles(initialFiles);
      activeId := InitialFiles(initialFiles)[0].id;
      selectedLanguage := "javascript";
    }

    /** `handleCodeChange`: returns the updated file handed to the change
        listener. The source returns early when there is no active file; the
        invariant shows that case never arises, so a file is always handed out. */
    method CodeChange(content: string) returns (changed: Option<CodeFile>)
      requires Valid()
      modifies this`files
      ensures Valid()
      ensures files == CodeChanged(old(files), activeId, content)
      ensures old(ActiveFile()).Some?
      ensures changed == Some(old(ActiveFile()).value.(content := content, isModified := true))
    {
      var active := Find(files, activeId);
      var updated := active.value.(content := content, isModified := true);
      var before := files;
      files := ReplaceById(files, activeId, updated);
      FindIndexSameIds(before, files, activeId);
      changed := Some(updated);
    }

    /** `handleLanguageChange`: the selector always follows; the active file's
        language follows when there is an active file. */
    method LanguageChange(language: string)
      requires Valid()
      modifies this`files, this`selectedLanguage
      ensures Valid()
      ensures selectedLanguage == language
      ensures files == LanguageChanged(old(files), activeId, language)
    {
      selectedLanguage := language;
      var active := Find(files, activeId);
      if active.Some? {
        var before := files;
        files := ReplaceById(files, activeId, active.value.(language := language));
        FindIndexSameIds(before, files, activeId);
      }
    }

    /** `createNewFile`, with the clock reading `id` that the source uses as the
        new id: append the new file and make its id the active one. The selector
        keeps its language. */
    method CreateNewFile(id: string)
      requires Valid()
      modifies this`files, this`activeId
      ensures Valid()
      ensures files == old(files) + [NewFile(id, |old(files)|)]
      ensures activeId == id
    {
      var f := NewFile(id, |files|);
      files := files + [f];
      activeId := f.id;
      assert files[|files| - 1].id == activeId;
    }

    /** Clicking a file tab; tabs are shown only when more than one file is open. */
    method SelectTab(id: string)
      requires Valid() && |files| > 1
      requires exists k :: 0 <= k < |files| && files[k].id == id
      modifies this`activeId
      ensures Valid() && activeId == id && ActiveFile().Some?
    {
      activeId := id;
    }
  }
}
