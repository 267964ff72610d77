/**
 * Reading and writing `index.md`: the line scanner of `parseIndex` with its front-matter
 * toggle, the list recogniser of `parseFrontmatter`, the task preview read from each task
 * file, and the text `saveBoard` writes. Each loop of the source is a method proved equal to
 * a left fold over the lines.
 */
module IndexFormat {
  import opened Wrappers
  import opened Text
  import opened Links
  import opened BoardModel

  // ---------------------------------------------------------------------------------------
  // parseFrontmatter

  /** `val.substring(1, val.length - 1)` when the value is wrapped in `'...'` or `"..."`. A lone
    * quote is left as it is, since `substring(1, 0)` swaps its bounds. */
  function Unquote(v: string): (r: string)
    ensures r == v || (|v| >= 2 && r == v[1..|v| - 1])
    ensures forall c :: c in r ==> c in v
  {
    if |v| >= 2 && ((v[0] == '\'' && v[|v| - 1] == '\'') || (v[0] == '"' && v[|v| - 1] == '"')) then v[1..|v| - 1]
    else v
  }

  lemma {:induction false} UnquoteQuoted(c: string)
    ensures Unquote("'" + c + "'") == c
  {
    var v := "'" + c + "'";
    assert v[1..|v| - 1] == c;
  }

  lemma {:induction false} UnquoteDoubleQuoted(c: string)
    ensures Unquote("\"" + c + "\"") == c
  {
    var v := "\"" + c + "\"";
    assert v[1..|v| - 1] == c;
  }

  /** A value that does not open with a quote is kept as it is. */
  lemma {:induction false} UnquotePlain(v: string)
    requires v == [] || (v[0] != '\'' && v[0] != '"')
    ensures Unquote(v) == v
  {
  }

  /** Which list the `-` items go to: the key recognised last. */
  datatype ListKey = NoKey | Started | Completed

  /** The recogniser's state: `currentKey` and the board being filled. */
  datatype FrontmatterScan = FrontmatterScan(key: ListKey, board: Board)

  /** One line of front matter: a key line switches the list, a `-` item joins the current one. */
  function FrontmatterStep(st: FrontmatterScan, line: string): (r: FrontmatterScan)
    ensures r.board.title == st.board.title && r.board.columns == st.board.columns
    ensures st.board.startedColumns <= r.board.startedColumns
    ensures st.board.completedColumns <= r.board.completedColumns
  {
    var t := Trim(line);
    if StartsWith(t, "startedColumns:") then st.(key := Started)
    else if StartsWith(t, "completedColumns:") then st.(key := Completed)
    else if StartsWith(t, "-") && st.key != NoKey then
      var v := Unquote(Trim(t[1..]));
      if st.key == Started then st.(board := st.board.(startedColumns := st.board.startedColumns + [v]))
      else st.(board := st.board.(completedColumns := st.board.completedColumns + [v]))
    else st
  }

  /** An item line before any key line is dropped. */
  lemma {:induction false} ItemBeforeKey(st: FrontmatterScan, line: string)
    requires st.key == NoKey && StartsWith(Trim(line), "-")
    ensures FrontmatterStep(st, line) == st
  {
    var t := Trim(line);
    assert t[..1] == "-";
    assert !StartsWith(t, "startedColumns:") by { assert |t| < 15 || t[..15][0] == '-'; }
    assert !StartsWith(t, "completedColumns:") by { assert |t| < 17 || t[..17][0] == '-'; }
  }

  /** Item lines with no key line before them leave the board as it is. */
  lemma {:induction false} ItemsBeforeKey(st: FrontmatterScan, lines: seq<string>, i: nat)
    requires st.key == NoKey
    requires forall k :: i <= k < |lines| ==> StartsWith(Trim(lines[k]), "-")
    ensures ScanFrom(FrontmatterStep, st, lines, i) == st
    decreases |lines| - i
  {
    if i < |lines| {
      ItemBeforeKey(st, lines[i]);
      ItemsBeforeKey(st, lines, i + 1);
    }
  }

  /** From line `i` on, the front-matter lines only grow the two lists, never shrink them. */
  lemma {:induction false} FrontmatterGrows(st: FrontmatterScan, lines: seq<string>, i: nat)
    ensures var r := ScanFrom(FrontmatterStep, st, lines, i);
            && r.board.title == st.board.title && r.board.columns == st.board.columns
            && st.board.startedColumns <= r.board.startedColumns
            && st.board.completedColumns <= r.board.completedColumns
    decreases |lines| - i
  {
    if i < |lines| {
      FrontmatterGrows(FrontmatterStep(st, lines[i]), lines, i + 1);
    }
  }

  /** The front-matter lines folded into the board: only the two lists grow, never shrink. */
  function ScanFrontmatter(st: FrontmatterScan, lines: seq<string>): (r: FrontmatterScan)
    ensures r.board.title == st.board.title && r.board.columns == st.board.columns
    ensures st.board.startedColumns <= r.board.startedColumns
    ensures st.board.completedColumns <= r.board.completedColumns
  {
    FrontmatterGrows(st, lines, 0);
    Scan(FrontmatterStep, st, lines)
  }

  /** What `parseFrontmatter(content, board)` leaves in `board`. */
  function ParseFrontmatterSpec(content: string, b: Board): Board {
    ScanFrontmatter(FrontmatterScan(NoKey, b), SplitLines(content)).board
  }

  /** `parseFrontmatter`: the board is passed in and its two lists are pushed onto. */
  method ParseFrontmatter(content: string, board: Board) returns (b: Board)
    ensures b == ParseFrontmatterSpec(content, board)
  {
    var lines := SplitLines(content);
    var currentKey := NoKey;
    b := board;
    var i := 0;
    while i < |lines|
      invariant 0 <= i <= |lines|
      invariant ScanFrom(FrontmatterStep, FrontmatterScan(currentKey, b), lines, i)
                == ScanFrontmatter(FrontmatterScan(NoKey, board), lines)
    {
      var trimmed := Trim(lines[i]);
      if StartsWith(trimmed, "startedColumns:") {
        currentKey := Started;
      } else if StartsWith(trimmed, "completedColumns:") {
        currentKey := Completed;
      } else if StartsWith(trimmed, "-") && currentKey != NoKey {
        var val := Unquote(Trim(trimmed[1..]));
        if currentKey == Started {
          b := b.(startedColumns := b.startedColumns + [val]);
        } else {
          b := b.(completedColumns := b.completedColumns + [val]);
        }
      }
      i := i + 1;
    }
  }

  // ---------------------------------------------------------------------------------------
  // The preview read from a task file

  /**
   * The body left by `^---\n[\s\S]*?\n---\n([\s\S]*)$`: when the text opens with `---\n`, the
   * lazy group ends at the first `\n---\n` found from index 4 on, and the body is what follows;
   * otherwise the whole text.
   */
  function StripFrontmatter(content: string): (body: string)
    ensures EndsWith(content, body)
    ensures !StartsWith(content, "---\n") || (forall j :: 4 <= j ==> !OccursAt(content, "\n---\n", j)) ==> body == content
    ensures body != content ==>
              && StartsWith(content, "---\n") && |body| + 9 <= |content|
              && OccursAt(content, "\n---\n", |content| - |body| - 5)
              && forall j :: 4 <= j < |content| - |body| - 5 ==> !OccursAt(content, "\n---\n", j)
  {
    if StartsWith(content, "---\n") then
      match IndexOfFrom(content, "\n---\n", 4)
      case None => content
      case Some(k) => content[k + 5..]
    else content
  }

  /** The preview loop: lines after a `# ` line, up to a `## ` line, kept trimmed when not blank. */
  function PreviewLines(found: bool, acc: seq<string>, lines: seq<string>): (r: seq<string>)
    ensures acc <= r
    ensures (forall i :: 0 <= i < |acc| ==> acc[i] != "" && Trimmed(acc[i])) ==>
              forall i :: 0 <= i < |r| ==> r[i] != "" && Trimmed(r[i])
    decreases |lines|
  {
    if lines == [] then acc
    else
      var line := lines[0];
      if StartsWith(line, "# ") then PreviewLines(true, acc, lines[1..])
      else if found && StartsWith(line, "## ") then acc
      else if found && Trim(line) != "" then PreviewLines(found, acc + [Trim(line)], lines[1..])
      else PreviewLines(found, acc, lines[1..])
  }

  const PreviewLength: nat := 100

  /** The description shown on the board: the preview lines joined by spaces, cut to 100
    * UTF-16 code units; the whole join when it fits. */
  function PreviewText(content: string): (d: string)
    ensures var j := JoinWith(PreviewLines(false, [], SplitLines(StripFrontmatter(content))), " ");
            && Utf16Length(d) <= PreviewLength && d <= j
            && (Utf16Length(j) <= PreviewLength ==> d == j)
  {
    Truncate(JoinWith(PreviewLines(false, [], SplitLines(StripFrontmatter(content))), " "), PreviewLength)
  }

  /** The preview of the task file at `path`; empty when there is no such file. */
  function PreviewOf(files: Files, path: string): (d: string)
    ensures Utf16Length(d) <= PreviewLength
    ensures path !in files ==> d == ""
  {
    if path in files then PreviewText(files[path]) else ""
  }

  /** The preview block of `parseIndex`, reading one task file's text. */
  method Preview(content: string) returns (description: string)
    ensures description == PreviewText(content)
  {
    var body := StripFrontmatter(content);
    var lines := SplitLines(body);
    var descLines: seq<string> := [];
    var foundTitle := false;
    var i := 0;
    while i < |lines|
      invariant 0 <= i <= |lines|
      invariant PreviewLines(foundTitle, descLines, lines[i..]) == PreviewLines(false, [], lines)
    {
      assert lines[i..][1..] == lines[i + 1..];
      var line := lines[i];
      if StartsWith(line, "# ") {
        foundTitle := true;
      } else if foundTitle && StartsWith(line, "## ") {
        break;
      } else if foundTitle && Trim(line) != "" {
        descLines := descLines + [Trim(line)];
      }
      i := i + 1;
    }
    description := Truncate(JoinWith(descLines, " "), PreviewLength);
  }

  /** `existsSync`, then the preview of the file; the empty description when it is missing. */
  method ReadPreview(files: Files, path: string) returns (description: string)
    ensures description == PreviewOf(files, path)
  {
    description := "";
    if path in files {
      description := Preview(files[path]);
    }
  }

  // ---------------------------------------------------------------------------------------
  // parseIndex

  /** The scanner's state: the board so far, the front-matter flag, the collected front matter. */
  datatype IndexScan = IndexScan(board: Board, inFrontmatter: bool, frontmatter: string)

  const InitialScan: IndexScan := IndexScan(InitialBoard, false, "")

  /** The task a link line adds to the column `column`. */
  function TaskOfLink(link: Link, column: string, files: Files): TaskRef {
    TaskRef(BaseName(link.target), link.text, PreviewOf(files, link.target), column, link.target)
  }

  /** Appends a task to the last column, the one `currentColumn` points to. */
  function AppendToLast(b: Board, t: TaskRef): (r: Board)
    requires |b.columns| > 0
    ensures |r.columns| == |b.columns|
  {
    var last := b.columns[|b.columns| - 1];
    b.(columns := b.columns[|b.columns| - 1 := last.(tasks := last.tasks + [t])])
  }

  /** A `---` line: opens the front matter, or closes it and reads what was collected. */
  function ToggleFrontmatter(st: IndexScan): IndexScan {
    if st.inFrontmatter then st.(inFrontmatter := false, board := ParseFrontmatterSpec(st.frontmatter, st.board))
    else st.(inFrontmatter := true)
  }

  /** A task link line under a heading: the task joins the last column when the link pattern matches. */
  function LinkLine(b: Board, t: string, files: Files): Board
    requires |b.columns| > 0
  {
    match MatchLink(t)
    case None => b
    case Some(link) => AppendToLast(b, TaskOfLink(link, b.columns[|b.columns| - 1].name, files))
  }

  /** A trimmed line outside the front matter: title, heading, task link, or nothing. */
  function BodyLine(b: Board, t: string, files: Files): Board {
    if StartsWith(t, "# ") then b.(title := t[2..])
    else if StartsWith(t, "## ") then b.(columns := b.columns + [Column(t[3..], [])])
    else if StartsWith(t, "- [") && |b.columns| > 0 then LinkLine(b, t, files)
    else b
  }

  /** One line of `index.md`. The checks come in the order of the source's `continue`s. */
  function IndexStep(st: IndexScan, line: string, files: Files): IndexScan {
    var t := Trim(line);
    if t == "---" then ToggleFrontmatter(st)
    else if st.inFrontmatter then st.(frontmatter := st.frontmatter + line + "\n")
    else st.(board := BodyLine(st.board, t, files))
  }

  /** The line step with the task files fixed. */
  function IndexStepper(files: Files): (IndexScan, string) -> IndexScan {
    (st: IndexScan, line: string) => IndexStep(st, line, files)
  }

  function ScanIndex(st: IndexScan, lines: seq<string>, files: Files): IndexScan {
    Scan(IndexStepper(files), st, lines)
  }

  /** The board `parseIndex(content)` returns, with previews read from `files`. */
  function ParseIndexSpec(content: string, files: Files): Board {
    ScanIndex(InitialScan, SplitLines(content), files).board
  }

  /** The body of `parseIndex`'s loop over the lines: one line read into the three variables. */
  method ScanIndexLine(board: Board, parsingFrontmatter: bool, frontmatterContent: string, line: string, files: Files)
    returns (board': Board, parsingFrontmatter': bool, frontmatterContent': string)
    ensures IndexScan(board', parsingFrontmatter', frontmatterContent')
            == IndexStep(IndexScan(board, parsingFrontmatter, frontmatterContent), line, files)
  {
    board', parsingFrontmatter', frontmatterContent' := board, parsingFrontmatter, frontmatterContent;
    var trimmed := Trim(line);
    if trimmed == "---" {
      if parsingFrontmatter {
        parsingFrontmatter' := false;
        board' := ParseFrontmatter(frontmatterContent, board);
      } else {
        parsingFrontmatter' := true;
      }
    } else if parsingFrontmatter {
      frontmatterContent' := frontmatterContent + line + "\n";
    } else {
      board' := ReadBodyLine(board, trimmed, files);
    }
  }

  /** The rest of the loop body, on a trimmed line outside the front matter. */
  method ReadBodyLine(board: Board, trimmed: string, files: Files) returns (board': Board)
    ensures board' == BodyLine(board, trimmed, files)
  {
    board' := board;
    if StartsWith(trimmed, "# ") {
      board' := board.(title := trimmed[2..]);
    } else if StartsWith(trimmed, "## ") {
      board' := board.(columns := board.columns + [Column(trimmed[3..], [])]);
    } else if StartsWith(trimmed, "- [") && |board.columns| > 0 {
      board' := AddLinkedTask(board, trimmed, files);
    }
  }

  /** A task link line: the matched link becomes a task at the end of the current column. */
  method AddLinkedTask(board: Board, trimmed: string, files: Files) returns (board': Board)
    requires |board.columns| > 0
    ensures board' == LinkLine(board, trimmed, files)
  {
    board' := board;
    var m := MatchLink(trimmed);
    if m.Some? {
      var current := board.columns[|board.columns| - 1];
      var description := ReadPreview(files, m.value.target);
      var task := TaskRef(BaseName(m.value.target), m.value.text, description, current.name, m.value.target);
      board' := board.(columns := board.columns[|board.columns| - 1 := current.(tasks := current.tasks + [task])]);
    }
  }

  /** `parseIndex`. `currentColumn` is always the column pushed last, so it is kept as that. */
  method ParseIndex(content: string, files: Files) returns (board: Board)
    ensures board == ParseIndexSpec(content, files)
  {
    var lines := SplitLines(content);
    board := InitialBoard;
    var parsingFrontmatter := false;
    var frontmatterContent := "";
    var i := 0;
    while i < |lines|
      invariant 0 <= i <= |lines|
      invariant ScanFrom(IndexStepper(files), IndexScan(board, parsingFrontmatter, frontmatterContent), lines, i)
                == ScanIndex(InitialScan, lines, files)
    {
      board, parsingFrontmatter, frontmatterContent :=
        ScanIndexLine(board, parsingFrontmatter, frontmatterContent, lines[i], files);
      i := i + 1;
    }
  }

  // ---------------------------------------------------------------------------------------
  // saveBoard

  /** `  - '<value>'`, one per list value. */
  function QuotedLines(vs: seq<string>): (r: seq<string>)
    ensures |r| == |vs|
    decreases |vs|
  {
    if vs == [] then [] else QuotedLines(vs[..|vs| - 1]) + ["  - '" + vs[|vs| - 1] + "'"]
  }

  /** A list block, written only when the list is not empty. */
  function ListLines(header: string, vs: seq<string>): seq<string> {
    if |vs| > 0 then [header] + QuotedLines(vs) else []
  }

  /** `- [<title>](<path>)`. */
  function TaskLine(t: TaskRef): string {
    "- [" + t.title + "](" + t.path + ")"
  }

  function TaskLines(ts: seq<TaskRef>): (r: seq<string>)
    ensures |r| == |ts|
    decreases |ts|
  {
    if ts == [] then [] else TaskLines(ts[..|ts| - 1]) + [TaskLine(ts[|ts| - 1])]
  }

  /** A heading, a blank line, the task links, and a blank line for spacing. */
  function ColumnLines(c: Column): seq<string> {
    ["## " + c.name, ""] + TaskLines(c.tasks) + [""]
  }

  function ColumnsLines(cs: seq<Column>): seq<string>
    decreases |cs|
  {
    if cs == [] then [] else ColumnsLines(cs[..|cs| - 1]) + ColumnLines(cs[|cs| - 1])
  }

  /** The front matter, the title, then every column. */
  function HeadLines(b: Board): seq<string> {
    ["---"] + ListLines("startedColumns:", b.startedColumns) + ListLines("completedColumns:", b.completedColumns)
    + ["---", "", "# " + b.title, ""]
  }

  function IndexLines(b: Board): seq<string> {
    HeadLines(b) + ColumnsLines(b.columns)
  }

  /** The text `saveBoard(board)` writes to `index.md`. */
  function IndexText(b: Board): string {
    Unlines(IndexLines(b))
  }

  /** One more list value written: its quoted line and a line feed. */
  lemma {:induction false} QuotedLinesStep(prefix: seq<string>, vs: seq<string>, i: nat)
    requires i < |vs|
    ensures Unlines(prefix + QuotedLines(vs[..i + 1])) == Unlines(prefix + QuotedLines(vs[..i])) + "  - '" + vs[i] + "'\n"
  {
    assert vs[..i + 1][..i] == vs[..i];
    UnlinesSnoc(prefix + QuotedLines(vs[..i]), "  - '" + vs[i] + "'");
    assert prefix + QuotedLines(vs[..i + 1]) == (prefix + QuotedLines(vs[..i])) + ["  - '" + vs[i] + "'"];
  }

  /** Appending list values one by one, as the `forEach` does. */
  method AppendQuoted(content: string, prefix: seq<string>, vs: seq<string>) returns (r: string)
    requires content == Unlines(prefix)
    ensures r == Unlines(prefix + QuotedLines(vs))
  {
    r := content;
    var i := 0;
    assert prefix + QuotedLines(vs[..0]) == prefix;
    while i < |vs|
      invariant 0 <= i <= |vs|
      invariant r == Unlines(prefix + QuotedLines(vs[..i]))
    {
      QuotedLinesStep(prefix, vs, i);
      r := r + "  - '" + vs[i] + "'\n";
      i := i + 1;
    }
    assert vs[..i] == vs;
  }

  /** A list of the front matter: its header line and its values, only when there are values. */
  method AppendList(content: string, written: seq<string>, header: string, vs: seq<string>) returns (r: string)
    requires content == Unlines(written)
    ensures r == Unlines(written + ListLines(header, vs))
  {
    r := content;
    if |vs| > 0 {
      UnlinesSnoc(written, header);
      r := r + header + "\n";
      r := AppendQuoted(r, written + [header], vs);
      LinesAssoc(written, [header], QuotedLines(vs));
    } else {
      assert written + ListLines(header, vs) == written;
    }
  }

  /** The front matter and title written first by `saveBoard`. */
  method RenderHead(board: Board) returns (content: string)
    ensures content == Unlines(HeadLines(board))
  {
    content := "---\n";
    assert content == Unlines(["---"]);
    var written: seq<string> := ["---"];
    content := AppendList(content, written, "startedColumns:", board.startedColumns);
    written := written + ListLines("startedColumns:", board.startedColumns);
    content := AppendList(content, written, "completedColumns:", board.completedColumns);
    written := written + ListLines("completedColumns:", board.completedColumns);
    UnlinesHeading(written, "---", "---\n\n");
    content := content + "---\n\n";
    written := written + ["---", ""];
    UnlinesHeading(written, "# " + board.title, "# " + board.title + "\n\n");
    content := content + ("# " + board.title + "\n\n");
    written := written + ["# " + board.title, ""];
    assert written == HeadLines(board);
  }

  /** One more task link written: its line and a line feed. */
  lemma {:induction false} TaskLinesStep(before: seq<string>, ts: seq<TaskRef>, j: nat)
    requires j < |ts|
    ensures Unlines(before + TaskLines(ts[..j + 1])) == Unlines(before + TaskLines(ts[..j])) + TaskLine(ts[j]) + "\n"
  {
    assert ts[..j + 1][..j] == ts[..j];
    UnlinesSnoc(before + TaskLines(ts[..j]), TaskLine(ts[j]));
    assert before + TaskLines(ts[..j + 1]) == (before + TaskLines(ts[..j])) + [TaskLine(ts[j])];
  }

  /** One column of `saveBoard`: its heading, its task links, and the spacing line. */
  method AppendColumn(content: string, before: seq<string>, col: Column) returns (r: string)
    requires content == Unlines(before)
    ensures r == Unlines(before + ColumnLines(col))
  {
    var head := before + ["## " + col.name, ""];
    UnlinesHeading(before, "## " + col.name, "## " + col.name + "\n\n");
    r := content + ("## " + col.name + "\n\n");
    var j := 0;
    assert head + TaskLines(col.tasks[..0]) == head;
    while j < |col.tasks|
      invariant 0 <= j <= |col.tasks|
      invariant r == Unlines(head + TaskLines(col.tasks[..j]))
    {
      var task := col.tasks[j];
      TaskLinesStep(head, col.tasks, j);
      r := r + TaskLine(task) + "\n";
      j := j + 1;
    }
    assert col.tasks[..j] == col.tasks;
    UnlinesClosed(before, "## " + col.name, TaskLines(col.tasks));
    r := r + "\n";
  }

  /** The text building of `saveBoard`. */
  method RenderIndex(board: Board) returns (content: string)
    ensures content == IndexText(board)
  {
    content := RenderHead(board);
    var i := 0;
    assert HeadLines(board) + ColumnsLines(board.columns[..0]) == HeadLines(board);
    while i < |board.columns|
      invariant 0 <= i <= |board.columns|
      invariant content == Unlines(HeadLines(board) + ColumnsLines(board.columns[..i]))
    {
      assert board.columns[..i + 1][..i] == board.columns[..i];
      assert HeadLines(board) + ColumnsLines(board.columns[..i + 1])
          == HeadLines(board) + ColumnsLines(board.columns[..i]) + ColumnLines(board.columns[i]);
      content := AppendColumn(content, HeadLines(board) + ColumnsLines(board.columns[..i]), board.columns[i]);
      i := i + 1;
    }
    assert board.columns[..i] == board.columns;
  }

  // ---------------------------------------------------------------------------------------
  // createBoard

  /** The lines of the `index.md` that `createBoard(root, name)` writes, each ended by a line break. */
  function DefaultIndexLines(name: string): seq<string> {
    ["---", "settings:", "  completedColumns:", "    - Done", "  startedColumns:", "    - In Progress", "---",
     "", "# " + name, "", "## Backlog", "", "## In Progress", "", "## Done"]
  }

  function DefaultIndexText(name: string): string {
    Unlines(DefaultIndexLines(name))
  }
}
