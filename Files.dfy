/** The file manager: a tree of files and folders, the set of expanded folders,
    the search query and the new-item dialog. What the tree view shows follows
    one recursive rule: an item is drawn when its name matches the query, and
    the children of a drawn folder are considered only when it is expanded. */
module Files {
  import opened Wrappers
  import opened Text

  datatype ItemKind = File | Folder

  /** A tree entry. The source also stores a modification date; it takes part in
      no decision, so it is not kept. */
  datatype FileItem = FileItem(
    id: string,
    name: string,
    kind: ItemKind,
    language: Option<string>,
    size: Option<nat>,
    children: Children,
    content: Option<string>)

  /** The optional `children` list of a tree entry: absent (files), or a list (folders). */
  datatype Children = NoChildren | Children(items: seq<FileItem>)

  /** The tree the component starts with: one root folder holding two folders. */
  const InitialTree: seq<FileItem> := [
    FileItem("1", "My Projects", Folder, None, None, Children([
      FileItem("2", "react-app", Folder, None, None, Children([
        FileItem("3", "App.js", File, Some("javascript"), Some(2048), NoChildren,
          Some("import React from \"react\";\n\nfunction App() {\n  return <div>Hello World</div>;\n}\n\nexport default App;")),
        FileItem("4", "index.html", File, Some("html"), Some(512), NoChildren,
          Some("<!DOCTYPE html>\n<html>\n<head>\n  <title>React App</title>\n</head>\n<body>\n  <div id=\"root\"></div>\n</body>\n</html>"))
      ]), None),
      FileItem("5", "python-scripts", Folder, None, None, Children([
        FileItem("6", "hello.py", File, Some("python"), Some(128), NoChildren,
          Some("def greet(name):\n    print(f\"Hello, {name}!\")\n\ngreet(\"World\")"))
      ]), None)
    ]), None)
  ]

  // ---------------------------------------------------------------------------
  // Expansion
  // ---------------------------------------------------------------------------

  /** `toggleFolder`'s set update: `id` flips membership, nothing else moves. */
  function Toggle(expanded: set<string>, id: string): (r: set<string>)
    ensures id in r <==> id !in expanded
    ensures forall x :: x != id ==> (x in r <==> x in expanded)
  {
    if id in expanded then expanded - {id} else expanded + {id}
  }

  /** Toggling twice restores the set. */
  lemma ToggleTwice(expanded: set<string>, id: string)
    ensures Toggle(Toggle(expanded, id), id) == expanded
  {
  }

  // ---------------------------------------------------------------------------
  // New items
  // ---------------------------------------------------------------------------

  /** The item `createNewItem` builds: a file is empty with size 0, a folder has no children. */
  function NewItem(id: string, name: string, kind: ItemKind): (item: FileItem)
    ensures item.id == id && item.name == name && item.kind == kind && item.language == None
    ensures kind == File ==> item.size == Some(0) && item.content == Some("") && item.children == NoChildren
    ensures kind == Folder ==> item.size == None && item.content == None && item.children == Children([])
  {
    FileItem(id, name, kind, None,
      if kind == File then Some(0) else None,
      if kind == Folder then Children([]) else NoChildren,
      if kind == File then Some("") else None)
  }

  // ---------------------------------------------------------------------------
  // What the tree view shows
  // ---------------------------------------------------------------------------

  /** The filter of `renderFileTree`: an empty query keeps everything, otherwise
      the lowered name must include the lowered query. */
  predicate Matches(item: FileItem, query: string) {
    query == [] || Contains(Lower(item.name), Lower(query))
  }

  /** A drawn item's children are drawn only for an expanded folder that has a children list. */
  predicate ShowsChildren(item: FileItem, expanded: set<string>) {
    item.kind == Folder && item.children.Children? && item.id in expanded
  }

  /** A drawn row: the item and where it sits in the tree (the indices from the
      root down); its indentation level is `|path| - 1`. */
  datatype Row = Row(item: FileItem, path: seq<nat>)

  /** `renderFileTree(items, level)` from position `start` on, for the list
      whose position in the tree is `prefix`. */
  function RenderFrom(items: seq<FileItem>, start: nat, query: string, expanded: set<string>, prefix: seq<nat>): seq<Row>
    decreases items, |items| - start
  {
    if start >= |items| then []
    else RenderItem(items[start], query, expanded, prefix + [start])
         + RenderFrom(items, start + 1, query, expanded, prefix)
  }

  /** One entry of `renderFileTree` at tree position `here`: nothing when the
      name does not match; otherwise its own row, followed by its children's
      rows when it is an expanded folder. */
  function RenderItem(item: FileItem, query: string, expanded: set<string>, here: seq<nat>): seq<Row>
    decreases item
  {
    if !Matches(item, query) then []
    else [Row(item, here)]
         + (if ShowsChildren(item, expanded) then RenderFrom(item.children.items, 0, query, expanded, here) else [])
  }

  /** The rows the file tree shows, top to bottom. */
  function Render(items: seq<FileItem>, query: string, expanded: set<string>): seq<Row> {
    RenderFrom(items, 0, query, expanded, [])
  }

  /** The item at a tree position in a list, if there is one. */
  function ItemAt(items: seq<FileItem>, path: seq<nat>): Option<FileItem>
    decreases |path|, 0
  {
    if path == [] || path[0] >= |items| then None else ItemIn(items[path[0]], path[1..])
  }

  /** The item at a position relative to `item`; the empty position is `item` itself. */
  function ItemIn(item: FileItem, rel: seq<nat>): Option<FileItem>
    decreases |rel|, 1
  {
    if rel == [] then Some(item)
    else match item.children
      case NoChildren => None
      case Children(kids) => ItemAt(kids, rel)
  }

  /** The visibility rule, stated on positions: the item at `path` matches the
      query, and so does each of its ancestors, each of which is an expanded folder. */
  predicate VisibleAt(items: seq<FileItem>, path: seq<nat>, query: string, expanded: set<string>)
    decreases |path|, 0
  {
    |path| >= 1 && path[0] < |items| && VisibleIn(items[path[0]], path[1..], query, expanded)
  }

  /** Visibility relative to a drawn candidate `item`: it matches, and a
      position below it needs it to show its children. */
  predicate VisibleIn(item: FileItem, rel: seq<nat>, query: string, expanded: set<string>)
    decreases |rel|, 1
  {
    Matches(item, query)
    && (rel == [] || (ShowsChildren(item, expanded) && VisibleAt(item.children.items, rel, query, expanded)))
  }

  /** Every row drawn from position `start` on sits below `prefix`, at a visible
      position holding exactly the drawn item. */
  lemma {:induction false} RenderFromSound(items: seq<FileItem>, start: nat, query: string,
                                           expanded: set<string>, prefix: seq<nat>, k: nat)
    requires k < |RenderFrom(items, start, query, expanded, prefix)|
    ensures var row := RenderFrom(items, start, query, expanded, prefix)[k];
            |row.path| > |prefix| && row.path[..|prefix|] == prefix && start <= row.path[|prefix|]
            && VisibleAt(items, row.path[|prefix|..], query, expanded)
            && ItemAt(items, row.path[|prefix|..]) == Some(row.item)
    decreases items, |items| - start
  {
    var here := prefix + [start];
    var own := RenderItem(items[start], query, expanded, here);
    var rest := RenderFrom(items, start + 1, query, expanded, prefix);
    var row := RenderFrom(items, start, query, expanded, prefix)[k];
    if k < |own| {
      assert row == own[k];
      RenderItemSound(items[start], query, expanded, here, k);
      var rel := row.path[|here|..];
      assert row.path[..|prefix|] == here[..|prefix|] == prefix;
      assert row.path[|prefix|..] == [start] + rel;
      assert ([start] + rel)[1..] == rel;
    } else {
      assert row == rest[k - |own|];
      RenderFromSound(items, start + 1, query, expanded, prefix, k - |own|);
    }
  }

  /** Every row an entry draws sits at or below `here`, at a position visible
      relative to the entry and holding exactly the drawn item. */
  lemma {:induction false} RenderItemSound(item: FileItem, query: string, expanded: set<string>,
                                           here: seq<nat>, k: nat)
    requires k < |RenderItem(item, query, expanded, here)|
    ensures var row := RenderItem(item, query, expanded, here)[k];
            |row.path| >= |here| && row.path[..|here|] == here
            && VisibleIn(item, row.path[|here|..], query, expanded)
            && ItemIn(item, row.path[|here|..]) == Some(row.item)
    decreases item
  {
    var row := RenderItem(item, query, expanded, here)[k];
    if k == 0 {
      assert row == Row(item, here);
      assert row.path[|here|..] == [];
    } else {
      var kids := RenderFrom(item.children.items, 0, query, expanded, here);
      assert row == kids[k - 1];
      RenderFromSound(item.children.items, 0, query, expanded, here, k - 1);
    }
  }

  /** Every visible position at or after `start` is drawn, below `prefix`. */
  lemma {:induction false} RenderFromComplete(items: seq<FileItem>, start: nat, query: string,
                                              expanded: set<string>, prefix: seq<nat>, path: seq<nat>)
    requires VisibleAt(items, path, query, expanded) && start <= path[0]
    ensures ItemAt(items, path).Some?
    ensures Row(ItemAt(items, path).value, prefix + path) in RenderFrom(items, start, query, expanded, prefix)
    decreases items, |items| - start
  {
    var here := prefix + [start];
    var own := RenderItem(items[start], query, expanded, here);
    var rest := RenderFrom(items, start + 1, query, expanded, prefix);
    assert RenderFrom(items, start, query, expanded, prefix) == own + rest;
    if path[0] == start {
      RenderItemComplete(items[start], query, expanded, here, path[1..]);
      assert here + path[1..] == prefix + path;
    } else {
      RenderFromComplete(items, start + 1, query, expanded, prefix, path);
    }
  }

  /** Every position visible relative to an entry is drawn by it, below `here`. */
  lemma {:induction false} RenderItemComplete(item: FileItem, query: string, expanded: set<string>,
                                              here: seq<nat>, rel: seq<nat>)
    requires VisibleIn(item, rel, query, expanded)
    ensures ItemIn(item, rel).Some?
    ensures Row(ItemIn(item, rel).value, here + rel) in RenderItem(item, query, expanded, here)
    decreases item
  {
    if rel == [] {
      assert here + rel == here;
    } else {
      RenderFromComplete(item.children.items, 0, query, expanded, here, rel);
    }
  }

  /** The tree view draws exactly the visible positions: every row is a visible
      position holding its item, and every visible position is drawn. */
  lemma RenderIsVisibility(items: seq<FileItem>, query: string, expanded: set<string>)
    ensures forall row :: row in Render(items, query, expanded) ==>
              VisibleAt(items, row.path, query, expanded) && ItemAt(items, row.path) == Some(row.item)
    ensures forall path :: VisibleAt(items, path, query, expanded) ==>
              ItemAt(items, path).Some? && Row(ItemAt(items, path).value, path) in Render(items, query, expanded)
  {
    var rows := Render(items, query, expanded);
    forall row | row in rows
      ensures VisibleAt(items, row.path, query, expanded) && ItemAt(items, row.path) == Some(row.item)
    {
      var k :| 0 <= k < |rows| && rows[k] == row;
      RenderFromSound(items, 0, query, expanded, [], k);
      assert row.path[0..] == row.path;
    }
    forall path | VisibleAt(items, path, query, expanded)
      ensures ItemAt(items, path).Some? && Row(ItemAt(items, path).value, path) in rows
    {
      RenderFromComplete(items, 0, query, expanded, [], path);
      assert [] + path == path;
    }
  }

  /** A root item whose name does not match hides itself and its whole subtree. */
  lemma NonMatchingRootHidesSubtree(items: seq<FileItem>, query: string, expanded: set<string>, i: nat)
    requires i < |items| && !Matches(items[i], query)
    ensures forall row :: row in Render(items, query, expanded) ==> |row.path| >= 1 && row.path[0] != i
  {
    RenderIsVisibility(items, query, expanded);
    forall row | row in Render(items, query, expanded)
      ensures |row.path| >= 1 && row.path[0] != i
    {
      assert VisibleAt(items, row.path, query, expanded);
      assert VisibleIn(items[row.path[0]], row.path[1..], query, expanded);
    }
  }

  /** A collapsed root folder shows none of its descendants. */
  lemma CollapsedRootHidesDescendants(items: seq<FileItem>, query: string, expanded: set<string>, i: nat)
    requires i < |items| && items[i].id !in expanded
    ensures forall row :: row in Render(items, query, expanded) ==>
              |row.path| >= 1 && (row.path[0] == i ==> |row.path| == 1)
  {
    RenderIsVisibility(items, query, expanded);
    forall row | row in Render(items, query, expanded)
      ensures |row.path| >= 1 && (row.path[0] == i ==> |row.path| == 1)
    {
      assert VisibleAt(items, row.path, query, expanded);
      if row.path[0] == i {
        assert VisibleIn(items[i], row.path[1..], query, expanded);
        assert row.path[1..] == [];
      }
    }
  }

  /** Appending a root item leaves every existing row where it was and draws
      the new item's rows last. */
  lemma {:induction false} RenderFromAppend(items: seq<FileItem>, x: FileItem, start: nat, query: string,
                                            expanded: set<string>, prefix: seq<nat>)
    requires start <= |items|
    ensures RenderFrom(items + [x], start, query, expanded, prefix)
            == RenderFrom(items, start, query, expanded, prefix) + RenderItem(x, query, expanded, prefix + [|items|])
    decreases |items| - start
  {
    if start < |items| {
      assert (items + [x])[start] == items[start];
      RenderFromAppend(items, x, start + 1, query, expanded, prefix);
    } else {
      assert (items + [x])[start] == x;
    }
  }

  /** A created item shows up at the bottom of the tree view when its name
      matches the query, and is hidden otherwise; the rows above are unchanged. */
  lemma NewItemShownLast(items: seq<FileItem>, id: string, name: string, kind: ItemKind,
                         query: string, expanded: set<string>)
    ensures var n := NewItem(id, name, kind);
            Render(items + [n], query, expanded)
            == Render(items, query, expanded) + (if Matches(n, query) then [Row(n, [|items|])] else [])
  {
    var n := NewItem(id, name, kind);
    RenderFromAppend(items, n, 0, query, expanded, []);
    assert [] + [|items|] == [|items|];
    if ShowsChildren(n, expanded) {
      assert RenderFrom(n.children.items, 0, query, expanded, [|items|]) == [];
    }
  }

  /** The number of items in a list and all the lists below it. */
  function TreeSize(items: seq<FileItem>): nat
    decreases items
  {
    if items == [] then 0 else SubtreeSize(items[0]) + TreeSize(items[1..])
  }

  /** The number of items in an entry's subtree, the entry included. */
  function SubtreeSize(item: FileItem): (n: nat)
    ensures n >= 1
    decreases item
  {
    match item.children
    case NoChildren => 1
    case Children(kids) => 1 + TreeSize(kids)
  }

  /** The footer's count: the number of root-level items, which never exceeds
      the number of items in the whole tree. */
  function FooterCount(items: seq<FileItem>): (n: nat)
    ensures n == |items|
    ensures n <= TreeSize(items)
    decreases items
  {
    if items == [] then 0 else 1 + FooterCount(items[1..])
  }

  /** An illustration of the footer counting root items only: for the sample
      tree it reports one item while the tree holds six. */
  lemma InitialCounts()
    ensures FooterCount(InitialTree) == 1 && TreeSize(InitialTree) == 6
  {
    var t := InitialTree;
    assert t[1..] == [];
    var root := t[0].children.items;
    assert root[1..][1..] == [];
    assert root[0].children.items[1..][1..] == [];
    assert root[1].children.items[1..] == [];
  }

  // ---------------------------------------------------------------------------
  // The component's state
  // ---------------------------------------------------------------------------

  class FileManager {
    /** `files`: the root-level items. */
    var files: seq<FileItem>
    /** `expandedFolders`. */
    var expanded: set<string>
    /** `searchQuery`. */
    var query: string
    /** `newFileName` and `newFileType`: the dialog's fields. */
    var newName: string
    var newKind: ItemKind
    /** `isCreateDialogOpen`. */
    var dialogOpen: bool

    /** The initial state: the sample tree, the root folder expanded, no query,
        an empty closed dialog set to create a file. */
    constructor ()
      ensures files == InitialTree && expanded == {"1"} && query == []
      ensures newName == [] && newKind == File && !dialogOpen
    {
      files := InitialTree;
      expanded := {"1"};
      query := [];
      newName := [];
      newKind := File;
      dialogOpen := false;
    }

    /** Typing in the search box. */
    method SetQuery(text: string)
      modifies this`query
      ensures query == text
    {
      query := text;
    }

    /** Typing in the dialog's name box. */
    method SetNewName(text: string)
      modifies this`newName
      ensures newName == text
    {
      newName := text;
    }

    /** The dialog's File / Folder buttons. */
    method SetNewKind(kind: ItemKind)
      modifies this`newKind
      ensures newKind == kind
    {
      newKind := kind;
    }

    /** Opening or closing the dialog. */
    method SetDialogOpen(open: bool)
      modifies this`dialogOpen
      ensures dialogOpen == open
    {
      dialogOpen := open;
    }

    /** `toggleFolder`. */
    method ToggleFolder(id: string)
      modifies this`expanded
      ensures expanded == Toggle(old(expanded), id)
    {
      if id in expanded {
        expanded := expanded - {id};
      } else {
        expanded := expanded + {id};
      }
    }

    /** `handleFileSelect`: a folder toggles its expansion; a file is handed to
        the selection listener (returned here) and no state changes. */
    method FileSelect(item: FileItem) returns (selected: Option<FileItem>)
      modifies this`expanded
      ensures item.kind == File ==> selected == Some(item) && expanded == old(expanded)
      ensures item.kind == Folder ==> selected == None && expanded == Toggle(old(expanded), item.id)
    {
      if item.kind == File {
        selected := Some(item);
      } else {
        ToggleFolder(item.id);
        selected := None;
      }
    }

    /** `createNewItem`, with the clock reading `id` that the source uses as the
        new id. A name that trims to nothing (all whitespace, by
        `Text.TrimEmptyIff`) changes nothing. Otherwise the item, under the name
        as typed, is appended at the root and handed to the creation listener
        (returned here); the name is cleared and the dialog closes. */
    method CreateNewItem(id: string) returns (created: Option<FileItem>)
      modifies this`files, this`newName, this`dialogOpen
      ensures AllWhitespace(old(newName)) ==>
                created == None && files == old(files) && newName == old(newName) && dialogOpen == old(dialogOpen)
      ensures !AllWhitespace(old(newName)) ==>
                created == Some(NewItem(id, old(newName), newKind))
                && files == old(files) + [created.value]
                && newName == [] && !dialogOpen
    {
      if AllWhitespace(newName) {
        return None;
      }
      var item := NewItem(id, newName, newKind);
      files := files + [item];
      created := Some(item);
      newName := [];
      dialogOpen := false;
    }

    /** Enter in the dialog's name box creates the item; other keys change nothing. */
    method NameKeyPress(key: string, id: string) returns (created: Option<FileItem>)
      modifies this`files, this`newName, this`dialogOpen
      ensures key != "Enter" ==>
                created == None && files == old(files) && newName == old(newName) && dialogOpen == old(dialogOpen)
      ensures key == "Enter" && AllWhitespace(old(newName)) ==>
                created == None && files == old(files) && newName == old(newName) && dialogOpen == old(dialogOpen)
      ensures key == "Enter" && !AllWhitespace(old(newName)) ==>
                created == Some(NewItem(id, old(newName), newKind))
                && files == old(files) + [created.value]
                && newName == [] && !dialogOpen
    {
      created := None;
      if key == "Enter" {
        created := CreateNewItem(id);
      }
    }
  }
}
