/**
 * The engine's public operations as whole load-modify-save steps on a board's `.kanbn`
 * directory: what each one leaves on disk, or the error it throws before writing anything.
 * The class in KanbanParserClass runs them; the lemmas here say what they mean.
 */
module Operations {
  import opened Wrappers
  import opened Text
  import opened Links
  import opened BoardModel
  import opened IndexFormat
  import opened IndexRoundTrip
  import opened BoardEdits
  import opened TaskFormat
  import opened TaskRoundTrip

  // ---------------------------------------------------------------------------------------
  // Loading and saving the index

  /** `loadBoard`: the board read from `index.md`, which must exist. */
  function LoadBoardSpec(files: Files): (r: Result<Board, KanbanError>)
    ensures r.Failure? <==> IndexPath !in files
    ensures r.Failure? ==> r.error == BoardIndexNotFound
  {
    if IndexPath in files then Success(ParseIndexSpec(files[IndexPath], files)) else Failure(BoardIndexNotFound)
  }

  /** `saveBoard`: `index.md` holds the board's text; no other file changes. */
  function Saved(files: Files, b: Board): Files {
    files[IndexPath := IndexText(b)]
  }

  /** The task the column-by-column search for `id` stops at. */
  function Found(b: Board, id: string): (r: Option<TaskRef>)
    ensures r.Some? <==> TaskLocation(b.columns, id).Some?
    ensures r.Some? ==> r.value.id == id
  {
    match TaskLocation(b.columns, id)
    case None => None
    case Some(loc) => Some(b.columns[loc.0].tasks[loc.1])
  }

  // ---------------------------------------------------------------------------------------
  // The five operations

  /** `if (fs.existsSync(p)) fs.unlinkSync(p)`: the file at `p` is gone, the others stay. */
  function Unlinked(files: Files, p: string): (r: Files)
    ensures p !in r
    ensures forall q :: q != p ==> (q in r <==> q in files) && (q in r ==> r[q] == files[q])
  {
    files - {p}
  }

  /** `moveTask`. */
  function MoveTaskSpec(files: Files, id: string, source: string, target: string): Result<Files, KanbanError> {
    match LoadBoardSpec(files)
    case Failure(e) => Failure(e)
    case Success(b) =>
      match MoveInBoard(b, id, source, target)
      case Failure(e) => Failure(e)
      case Success(moved) => Success(Saved(files, moved))
  }

  /** `createTask`: the new task file, then the index. */
  function CreateTaskSpec(files: Files, title: string, column: string): Result<Files, KanbanError> {
    match LoadBoardSpec(files)
    case Failure(e) => Failure(e)
    case Success(b) =>
      match CreateInBoard(b, title, column, files)
      case Failure(e) => Failure(e)
      case Success(created) => Success(Saved(files[TaskPath(DeriveId(title)) := NewTaskText(title)], created))
  }

  /** `deleteTask`: the found task's file goes if it is there, then the index is saved. */
  function DeleteTaskSpec(files: Files, id: string): Result<Files, KanbanError> {
    match LoadBoardSpec(files)
    case Failure(e) => Failure(e)
    case Success(b) => DeleteOnBoard(files, b, id)
  }

  /** `deleteTask` once the board is loaded. */
  function DeleteOnBoard(files: Files, b: Board, id: string): Result<Files, KanbanError> {
    match DeleteInBoard(b, id)
    case Failure(e) => Failure(e)
    case Success(deleted) => Success(Saved(Unlinked(files, Found(b, id).value.path), deleted))
  }

  /**
   * `updateTask`: the task's file is rewritten from `data` and the stamped metadata, and the
   * index is saved only when the title changes. `updatedAt` and `createdAt` are the two clock
   * readings; `dump` is the YAML writer.
   */
  function UpdateTaskSpec(files: Files, id: string, data: TaskBody, metadata: Metadata,
                          updatedAt: string, createdAt: string, dump: Metadata -> Option<string>): Result<Files, KanbanError> {
    match LoadBoardSpec(files)
    case Failure(e) => Failure(e)
    case Success(b) => UpdateOnBoard(files, b, id, FileText(Stamp(metadata, updatedAt, createdAt), BodyText(data), dump), data.title)
  }

  /** `updateTask` once the board is loaded: `text` is the task file's new content. */
  function UpdateOnBoard(files: Files, b: Board, id: string, text: string, title: string): Result<Files, KanbanError> {
    match TaskLocation(b.columns, id)
    case None => Failure(TaskNotFound)
    case Some(loc) =>
      var t := b.columns[loc.0].tasks[loc.1];
      if t.path !in files then Failure(TaskNotFound)
      else
        var written := files[t.path := text];
        if TitleChanges(t, title) then Success(Saved(written, RetitleAt(b, loc.0, loc.1, title)))
        else Success(written)
  }

  /** `getTask`: the found task's file, read with `load` as the YAML reader. */
  function GetTaskSpec(files: Files, id: string, load: string -> YamlLoad): Result<TaskDoc, KanbanError> {
    match LoadBoardSpec(files)
    case Failure(e) => Failure(e)
    case Success(b) => GetOnBoard(files, b, id, load)
  }

  /** `getTask` once the board is loaded. */
  function GetOnBoard(files: Files, b: Board, id: string, load: string -> YamlLoad): Result<TaskDoc, KanbanError> {
    match Found(b, id)
    case None => Failure(TaskFileNotFound)
    case Some(t) =>
      if t.path !in files then Failure(TaskFileNotFound)
      else Success(ReadTask(files[t.path], load))
  }

  /** The directory `createBoard` makes for a board: the default index and no task yet. */
  function NewBoardFiles(name: string): Files {
    map[IndexPath := DefaultIndexText(name)]
  }

  // ---------------------------------------------------------------------------------------
  // Boards that list the same tasks

  /** Two task references that differ at most in their preview. */
  predicate SameTask(t1: TaskRef, t2: TaskRef) {
    t1.id == t2.id && t1.title == t2.title && t1.column == t2.column && t1.path == t2.path
  }

  /** Column lists that hold the same columns and tasks in the same places, previews aside. */
  predicate Listed(cs1: seq<Column>, cs2: seq<Column>) {
    && |cs1| == |cs2|
    && forall i :: 0 <= i < |cs1| ==>
         && cs1[i].name == cs2[i].name
         && |cs1[i].tasks| == |cs2[i].tasks|
         && forall k :: 0 <= k < |cs1[i].tasks| ==> SameTask(cs1[i].tasks[k], cs2[i].tasks[k])
  }

  /** The same board, previews aside. */
  predicate SameBoard(b1: Board, b2: Board) {
    && b1.title == b2.title && b1.startedColumns == b2.startedColumns && b1.completedColumns == b2.completedColumns
    && Listed(b1.columns, b2.columns)
  }

  /** Column lists whose tasks carry the same ids in the same places. */
  predicate SameIds(cs1: seq<Column>, cs2: seq<Column>) {
    && |cs1| == |cs2|
    && forall i :: 0 <= i < |cs1| ==>
         && |cs1[i].tasks| == |cs2[i].tasks|
         && forall k :: 0 <= k < |cs1[i].tasks| ==> cs1[i].tasks[k].id == cs2[i].tasks[k].id
  }

  lemma {:induction false} ListedIds(cs1: seq<Column>, cs2: seq<Column>)
    requires Listed(cs1, cs2)
    ensures SameIds(cs1, cs2)
  {
  }

  /** The search for an id only looks at ids. */
  lemma {:induction false} TaskIndexSameIds(ts1: seq<TaskRef>, ts2: seq<TaskRef>, id: string)
    requires |ts1| == |ts2| && forall k :: 0 <= k < |ts1| ==> ts1[k].id == ts2[k].id
    ensures TaskIndex(ts1, id) == TaskIndex(ts2, id)
    decreases |ts1|
  {
    if ts1 != [] {
      TaskIndexSameIds(ts1[1..], ts2[1..], id);
    }
  }

  lemma {:induction false} TaskLocationSameIds(cs1: seq<Column>, cs2: seq<Column>, id: string)
    requires SameIds(cs1, cs2)
    ensures TaskLocation(cs1, id) == TaskLocation(cs2, id)
    decreases |cs1|
  {
    if cs1 != [] {
      TaskIndexSameIds(cs1[0].tasks, cs2[0].tasks, id);
      var r1, r2 := cs1[1..], cs2[1..];
      forall i | 0 <= i < |r1|
        ensures |r1[i].tasks| == |r2[i].tasks|
        ensures forall k :: 0 <= k < |r1[i].tasks| ==> r1[i].tasks[k].id == r2[i].tasks[k].id
      {
        assert r1[i] == cs1[i + 1] && r2[i] == cs2[i + 1];
      }
      TaskLocationSameIds(r1, r2, id);
    }
  }

  /** A listed task whose id is the base name of its path and whose column is `name`. */
  predicate TaskConsistent(t: TaskRef, name: string) {
    t.id == BaseName(t.path) && t.column == name
  }

  predicate ColumnConsistent(c: Column) {
    forall k :: 0 <= k < |c.tasks| ==> TaskConsistent(c.tasks[k], c.name)
  }

  /** Every task carries the id and the column a reload would give it. */
  predicate Consistent(b: Board) {
    forall i :: 0 <= i < |b.columns| ==> ColumnConsistent(b.columns[i])
  }

  lemma {:induction false} FreshConsistent(b: Board, files: Files)
    requires Fresh(b, files)
    ensures Consistent(b)
  {
    forall i | 0 <= i < |b.columns| ensures ColumnConsistent(b.columns[i]) {
      assert ColumnFresh(b.columns[i], files);
    }
  }

  /** Reading a consistent board back only re-reads its previews. */
  lemma {:induction false} RefreshListed(b: Board, files: Files)
    requires Consistent(b)
    ensures SameBoard(Refreshed(b, files), b)
  {
  }

  // ---------------------------------------------------------------------------------------
  // What a load reads from the task files: only the previews

  /** The front matter's lists grow from the lists the board already has, whatever else it holds. */
  lemma {:induction false} ScanFrontmatterLists(s1: FrontmatterScan, s2: FrontmatterScan, lines: seq<string>, i: nat)
    requires s1.key == s2.key
    requires s1.board.startedColumns == s2.board.startedColumns && s1.board.completedColumns == s2.board.completedColumns
    ensures var r1, r2 := ScanFrom(FrontmatterStep, s1, lines, i), ScanFrom(FrontmatterStep, s2, lines, i);
            r1.board.startedColumns == r2.board.startedColumns && r1.board.completedColumns == r2.board.completedColumns
    decreases |lines| - i
  {
    if i < |lines| {
      ScanFrontmatterLists(FrontmatterStep(s1, lines[i]), FrontmatterStep(s2, lines[i]), lines, i + 1);
    }
  }

  lemma {:induction false} AppendToLastSame(b1: Board, b2: Board, t1: TaskRef, t2: TaskRef)
    requires SameBoard(b1, b2) && |b1.columns| > 0 && SameTask(t1, t2)
    ensures SameBoard(AppendToLast(b1, t1), AppendToLast(b2, t2))
  {
    var n := |b1.columns|;
    var r1, r2 := AppendToLast(b1, t1), AppendToLast(b2, t2);
    forall i | 0 <= i < n
      ensures r1.columns[i].name == r2.columns[i].name && |r1.columns[i].tasks| == |r2.columns[i].tasks|
              && forall k :: 0 <= k < |r1.columns[i].tasks| ==> SameTask(r1.columns[i].tasks[k], r2.columns[i].tasks[k])
    {
      if i == n - 1 {
        var l1, l2 := b1.columns[n - 1].tasks, b2.columns[n - 1].tasks;
        assert r1.columns[i].tasks == l1 + [t1] && r2.columns[i].tasks == l2 + [t2];
      }
    }
  }

  /** A link line adds alike tasks to alike boards. */
  lemma {:induction false} LinkLineSame(b1: Board, b2: Board, t: string, f: Files, g: Files)
    requires SameBoard(b1, b2) && |b1.columns| > 0
    ensures SameBoard(LinkLine(b1, t, f), LinkLine(b2, t, g))
  {
    match MatchLink(t)
    case None =>
    case Some(link) =>
      var name := b1.columns[|b1.columns| - 1].name;
      AppendToLastSame(b1, b2, TaskOfLink(link, name, f), TaskOfLink(link, name, g));
  }

  /** A new empty column keeps two listings alike. */
  lemma {:induction false} OpenedColumnSame(cs1: seq<Column>, cs2: seq<Column>, c: Column)
    requires Listed(cs1, cs2) && c.tasks == []
    ensures Listed(cs1 + [c], cs2 + [c])
  {
    var ds1, ds2 := cs1 + [c], cs2 + [c];
    forall i | 0 <= i < |ds1|
      ensures ds1[i].name == ds2[i].name && |ds1[i].tasks| == |ds2[i].tasks|
              && forall k :: 0 <= k < |ds1[i].tasks| ==> SameTask(ds1[i].tasks[k], ds2[i].tasks[k])
    {
      if i < |cs1| {
        assert ds1[i] == cs1[i] && ds2[i] == cs2[i];
      }
    }
  }

  lemma {:induction false} BodyLineSame(b1: Board, b2: Board, t: string, f: Files, g: Files)
    requires SameBoard(b1, b2)
    ensures SameBoard(BodyLine(b1, t, f), BodyLine(b2, t, g))
  {
    if StartsWith(t, "# ") {
    } else if StartsWith(t, "## ") {
      OpenedColumnSame(b1.columns, b2.columns, Column(t[3..], []));
    } else if StartsWith(t, "- [") && |b1.columns| > 0 {
      LinkLineSame(b1, b2, t, f, g);
    }
  }

  lemma {:induction false} IndexStepSame(s1: IndexScan, s2: IndexScan, line: string, f: Files, g: Files)
    requires s1.inFrontmatter == s2.inFrontmatter && s1.frontmatter == s2.frontmatter && SameBoard(s1.board, s2.board)
    ensures var r1, r2 := IndexStep(s1, line, f), IndexStep(s2, line, g);
            r1.inFrontmatter == r2.inFrontmatter && r1.frontmatter == r2.frontmatter && SameBoard(r1.board, r2.board)
  {
    var t := Trim(line);
    if t == "---" {
      if s1.inFrontmatter {
        var lines := SplitLines(s1.frontmatter);
        ScanFrontmatterLists(FrontmatterScan(NoKey, s1.board), FrontmatterScan(NoKey, s2.board), lines, 0);
      }
    } else if !s1.inFrontmatter {
      BodyLineSame(s1.board, s2.board, t, f, g);
    }
  }

  lemma {:induction false} ScanIndexSame(s1: IndexScan, s2: IndexScan, lines: seq<string>, i: nat, f: Files, g: Files)
    requires s1.inFrontmatter == s2.inFrontmatter && s1.frontmatter == s2.frontmatter && SameBoard(s1.board, s2.board)
    ensures SameBoard(ScanFrom(IndexStepper(f), s1, lines, i).board, ScanFrom(IndexStepper(g), s2, lines, i).board)
    decreases |lines| - i
  {
    if i < |lines| {
      IndexStepSame(s1, s2, lines[i], f, g);
      ScanIndexSame(IndexStep(s1, lines[i], f), IndexStep(s2, lines[i], g), lines, i + 1, f, g);
    }
  }

  /**
   * Which columns and tasks `index.md` lists, and where, does not depend on the task files:
   * those only feed the previews.
   */
  lemma {:induction false} ParseIndexSame(content: string, f: Files, g: Files)
    ensures SameBoard(ParseIndexSpec(content, f), ParseIndexSpec(content, g))
  {
    ScanIndexSame(InitialScan, InitialScan, SplitLines(content), 0, f, g);
  }

  // ---------------------------------------------------------------------------------------
  // Edits keep a board saveable

  lemma {:induction false} ColumnReplaced(b: Board, i: nat, c: Column)
    requires Printable(b) && Consistent(b) && i < |b.columns| && ColumnPrintable(c) && ColumnConsistent(c)
    ensures var r := b.(columns := b.columns[i := c]);
            Printable(r) && Consistent(r)
  {
  }

  lemma {:induction false} ColumnAppend(c: Column, t: TaskRef)
    requires ColumnPrintable(c) && ColumnConsistent(c) && TaskPrintable(t) && TaskConsistent(t, c.name)
    ensures var r := c.(tasks := c.tasks + [t]);
            ColumnPrintable(r) && ColumnConsistent(r)
  {
    var r := c.(tasks := c.tasks + [t]);
    forall k | 0 <= k < |r.tasks| ensures TaskPrintable(r.tasks[k]) && TaskConsistent(r.tasks[k], r.name) {
      if k < |c.tasks| {
        assert r.tasks[k] == c.tasks[k];
      }
    }
  }

  lemma {:induction false} ColumnRemoveAt(c: Column, k: nat)
    requires ColumnPrintable(c) && ColumnConsistent(c) && k < |c.tasks|
    ensures var r := c.(tasks := RemoveAt(c.tasks, k));
            ColumnPrintable(r) && ColumnConsistent(r)
  {
    var r := c.(tasks := RemoveAt(c.tasks, k));
    forall j | 0 <= j < |r.tasks| ensures TaskPrintable(r.tasks[j]) && TaskConsistent(r.tasks[j], r.name) {
      if j < k {
        assert r.tasks[j] == c.tasks[j];
      } else {
        assert r.tasks[j] == c.tasks[j + 1];
      }
    }
  }

  lemma {:induction false} ColumnRemoveId(c: Column, id: string)
    requires ColumnPrintable(c) && ColumnConsistent(c)
    ensures var r := c.(tasks := RemoveId(c.tasks, id));
            ColumnPrintable(r) && ColumnConsistent(r)
  {
    var r := c.(tasks := RemoveId(c.tasks, id));
    forall j | 0 <= j < |r.tasks| ensures TaskPrintable(r.tasks[j]) && TaskConsistent(r.tasks[j], r.name) {
      assert r.tasks[j] in c.tasks;
    }
  }

  lemma {:induction false} ColumnRetitle(c: Column, k: nat, title: string)
    requires ColumnPrintable(c) && ColumnConsistent(c) && k < |c.tasks| && LinkTextSafe(title)
    ensures var r := c.(tasks := c.tasks[k := c.tasks[k].(title := title)]);
            ColumnPrintable(r) && ColumnConsistent(r)
  {
  }

  lemma {:induction false} MovedKeeps(b: Board, si: nat, k: nat, ti: nat, target: string)
    requires Printable(b) && Consistent(b)
    requires si < |b.columns| && ti < |b.columns| && k < |b.columns[si].tasks| && b.columns[ti].name == target
    ensures Printable(MoveAt(b, si, k, ti, target)) && Consistent(MoveAt(b, si, k, ti, target))
  {
    var src := b.columns[si];
    var task := src.tasks[k];
    ColumnRemoveAt(src, k);
    ColumnReplaced(b, si, src.(tasks := RemoveAt(src.tasks, k)));
    var b1 := b.(columns := b.columns[si := src.(tasks := RemoveAt(src.tasks, k))]);
    var t := task.(column := target);
    assert TaskConsistent(task, src.name);
    ColumnAppend(b1.columns[ti], t);
    ColumnReplaced(b1, ti, b1.columns[ti].(tasks := b1.columns[ti].tasks + [t]));
  }

  /** A slug holds no `/`, no line terminator and no `)`. */
  lemma {:induction false} SlugSafe(id: string)
    requires SlugAlphabet(id)
    ensures '/' !in id && LinkTargetSafe(id)
  {
    forall j | 0 <= j < |id| ensures id[j] != '/' && !IsLineTerminator(id[j]) && id[j] != ')' {
      assert IsSlugChar(id[j]) || id[j] == '-';
    }
  }

  /** `tasks/<id>.md` is a safe link target when `id` is. */
  lemma {:induction false} TaskPathSafe(id: string)
    requires LinkTargetSafe(id)
    ensures LinkTargetSafe(TaskPath(id))
  {
    var p := TaskPath(id);
    forall j | 0 <= j < |p| ensures !IsLineTerminator(p[j]) && p[j] != ')' {
      if j < 6 {
        assert p[j] == "tasks/"[j];
      } else if j < 6 + |id| {
        assert p[j] == id[j - 6];
      } else {
        assert p[j] == ".md"[j - 6 - |id|];
      }
    }
  }

  /** The path of a task file `createTask` writes is a safe link target that gives back the id. */
  lemma {:induction false} TaskPathReadsBack(id: string)
    requires IsSlug(id) && id != []
    ensures LinkTargetSafe(TaskPath(id)) && BaseName(TaskPath(id)) == id
  {
    SlugSafe(id);
    BaseNameOfTaskPath(id);
    TaskPathSafe(id);
  }

  lemma {:induction false} CreatedKeeps(b: Board, title: string, column: string, files: Files)
    requires Printable(b) && Consistent(b) && CreateInBoard(b, title, column, files).Success?
    requires LinkTextSafe(title) && DeriveId(title) != []
    ensures Printable(CreateInBoard(b, title, column, files).value) && Consistent(CreateInBoard(b, title, column, files).value)
  {
    var ci := ColumnIndex(b.columns, column).value;
    var t := NewTask(title, column);
    TaskPathReadsBack(DeriveId(title));
    ColumnAppend(b.columns[ci], t);
    ColumnReplaced(b, ci, b.columns[ci].(tasks := b.columns[ci].tasks + [t]));
  }

  lemma {:induction false} DeletedKeeps(b: Board, id: string)
    requires Printable(b) && Consistent(b) && DeleteInBoard(b, id).Success?
    ensures Printable(DeleteInBoard(b, id).value) && Consistent(DeleteInBoard(b, id).value)
  {
    var c := TaskLocation(b.columns, id).value.0;
    ColumnRemoveId(b.columns[c], id);
    ColumnReplaced(b, c, b.columns[c].(tasks := RemoveId(b.columns[c].tasks, id)));
  }

  lemma {:induction false} RetitledKeeps(b: Board, c: nat, k: nat, title: string)
    requires Printable(b) && Consistent(b) && c < |b.columns| && k < |b.columns[c].tasks| && LinkTextSafe(title)
    ensures Printable(RetitleAt(b, c, k, title)) && Consistent(RetitleAt(b, c, k, title))
  {
    var col := b.columns[c];
    ColumnRetitle(col, k, title);
    ColumnReplaced(b, c, col.(tasks := col.tasks[k := col.tasks[k].(title := title)]));
  }

  // ---------------------------------------------------------------------------------------
  // Saving and reloading

  /** Every file outside `ps` is as it was: none added, none removed, none changed. */
  ghost predicate KeepsOthers(f: Files, g: Files, ps: set<string>) {
    forall q :: q !in ps ==> (q in g <==> q in f) && (q in g ==> g[q] == f[q])
  }

  /** Whatever `index.md` holds, the board loaded from it can be saved and read back. */
  lemma {:induction false} LoadedSaveable(files: Files)
    requires IndexPath in files
    ensures Printable(LoadBoardSpec(files).value) && Consistent(LoadBoardSpec(files).value)
  {
    ParsedPrintable(files[IndexPath], files);
    FreshConsistent(LoadBoardSpec(files).value, files);
  }

  /** `loadBoard` after `saveBoard` gives back the saved board, previews aside. */
  lemma {:induction false} SaveThenLoad(files: Files, b: Board)
    requires Printable(b) && Consistent(b)
    ensures LoadBoardSpec(Saved(files, b)).Success?
    ensures SameBoard(LoadBoardSpec(Saved(files, b)).value, b)
  {
    ParseIndexText(b, Saved(files, b));
    RefreshListed(b, Saved(files, b));
  }

  /** Boards that list the same tasks hold as many. */
  lemma {:induction false} ListedTotal(cs1: seq<Column>, cs2: seq<Column>)
    requires Listed(cs1, cs2)
    ensures TotalTasks(cs1) == TotalTasks(cs2)
    decreases |cs1|
  {
    if cs1 != [] {
      assert Listed(cs1[1..], cs2[1..]) by {
        forall i | 0 <= i < |cs1| - 1
          ensures cs1[1..][i].name == cs2[1..][i].name && |cs1[1..][i].tasks| == |cs2[1..][i].tasks|
                  && forall k :: 0 <= k < |cs1[1..][i].tasks| ==> SameTask(cs1[1..][i].tasks[k], cs2[1..][i].tasks[k])
        {
          assert cs1[1..][i] == cs1[i + 1] && cs2[1..][i] == cs2[i + 1];
        }
      }
      ListedTotal(cs1[1..], cs2[1..]);
    }
  }

  // ---------------------------------------------------------------------------------------
  // moveTask on disk

  /** The three errors of `moveTask`, each exactly when the source throws it. */
  lemma {:induction false} MoveTaskErrors(files: Files, id: string, source: string, target: string)
    ensures MoveTaskSpec(files, id, source, target) == Failure(BoardIndexNotFound) <==> IndexPath !in files
    ensures IndexPath in files ==>
              var b := LoadBoardSpec(files).value;
              && (MoveTaskSpec(files, id, source, target) == Failure(ColumnNotFound)
                  <==> !HasColumn(b, source) || !HasColumn(b, target))
              && (MoveTaskSpec(files, id, source, target) == Failure(TaskNotFoundInSourceColumn)
                  <==> HasColumn(b, source) && HasColumn(b, target)
                       && !HoldsId(b.columns[ColumnIndex(b.columns, source).value], id))
  {
    if IndexPath in files {
      MoveErrors(LoadBoardSpec(files).value, id, source, target);
    }
  }

  /** `saveBoard` touches `index.md` only. */
  lemma {:induction false} SavedKeepsOthers(files: Files, b: Board)
    ensures KeepsOthers(files, Saved(files, b), {IndexPath})
  {
  }

  /** What the next load sees after a board edit is saved: the edited board, previews aside. */
  lemma {:induction false} EditThenLoad(files: Files, b: Board, edited: Board)
    requires Printable(edited) && Consistent(edited)
    ensures var r := LoadBoardSpec(Saved(files, edited));
            r.Success? && SameBoard(r.value, edited) && TotalTasks(r.value.columns) == TotalTasks(edited.columns)
  {
    SaveThenLoad(files, edited);
    ListedTotal(LoadBoardSpec(Saved(files, edited)).value.columns, edited.columns);
  }

  /** Column `i` exists and its last task has the id and names `column` as its column. */
  predicate LastInColumn(cs: seq<Column>, i: nat, id: string, column: string) {
    i < |cs| && |cs[i].tasks| > 0 && cs[i].tasks[|cs[i].tasks| - 1].id == id
    && cs[i].tasks[|cs[i].tasks| - 1].column == column
  }

  /** The moved task is last in the target column. */
  lemma {:induction false} MovedLast(b: Board, si: nat, k: nat, ti: nat, target: string)
    requires si < |b.columns| && ti < |b.columns| && k < |b.columns[si].tasks|
    ensures LastInColumn(MoveAt(b, si, k, ti, target).columns, ti, b.columns[si].tasks[k].id, target)
  {
    var r := MoveAt(b, si, k, ti, target);
    var t := b.columns[si].tasks[k].(column := target);
    if si == ti {
      assert r.columns[ti].tasks == RemoveAt(b.columns[si].tasks, k) + [t];
    } else {
      assert r.columns[ti].tasks == b.columns[ti].tasks + [t];
    }
  }

  lemma {:induction false} LastInListed(cs1: seq<Column>, cs2: seq<Column>, i: nat, id: string, column: string)
    requires Listed(cs1, cs2) && LastInColumn(cs2, i, id, column)
    ensures LastInColumn(cs1, i, id, column)
  {
    var n := |cs2[i].tasks|;
    assert SameTask(cs1[i].tasks[n - 1], cs2[i].tasks[n - 1]);
  }

  /**
   * A move rewrites `index.md` and nothing else, and the next load sees the moved board: the
   * task last in the target column, as many tasks as before.
   */
  lemma {:induction false} MoveTaskPersists(files: Files, id: string, source: string, target: string)
    requires MoveTaskSpec(files, id, source, target).Success?
    ensures IndexPath in files
    ensures var f := MoveTaskSpec(files, id, source, target).value;
            var b := LoadBoardSpec(files).value;
            var moved := MoveInBoard(b, id, source, target).value;
            && KeepsOthers(files, f, {IndexPath})
            && LoadBoardSpec(f).Success?
            && SameBoard(LoadBoardSpec(f).value, moved)
            && TotalTasks(LoadBoardSpec(f).value.columns) == TotalTasks(b.columns)
            && LastInColumn(LoadBoardSpec(f).value.columns, ColumnIndex(b.columns, target).value, id, target)
  {
    var b := LoadBoardSpec(files).value;
    var si, ti := ColumnIndex(b.columns, source).value, ColumnIndex(b.columns, target).value;
    var k := TaskIndex(b.columns[si].tasks, id).value;
    var moved := MoveInBoard(b, id, source, target).value;
    assert moved == MoveAt(b, si, k, ti, target);
    var f := Saved(files, moved);
    assert MoveTaskSpec(files, id, source, target).value == f;
    LoadedSaveable(files);
    MovedKeeps(b, si, k, ti, target);
    SavedKeepsOthers(files, moved);
    EditThenLoad(files, b, moved);
    var r := LoadBoardSpec(f).value;
    MovedLast(b, si, k, ti, target);
    LastInListed(r.columns, moved.columns, ti, id, target);
    assert TotalTasks(r.columns) == TotalTasks(b.columns);
  }

  // ---------------------------------------------------------------------------------------
  // createTask on disk

  /** The three errors of `createTask`, each exactly when the source throws it. */
  lemma {:induction false} CreateTaskErrors(files: Files, title: string, column: string)
    ensures CreateTaskSpec(files, title, column) == Failure(BoardIndexNotFound) <==> IndexPath !in files
    ensures IndexPath in files ==>
              var b := LoadBoardSpec(files).value;
              && (CreateTaskSpec(files, title, column) == Failure(ColumnNotFound) <==> !HasColumn(b, column))
              && (CreateTaskSpec(files, title, column) == Failure(TaskAlreadyExists(DeriveId(title)))
                  <==> HasColumn(b, column) && TaskPath(DeriveId(title)) in files)
  {
  }

  /** A task file's path is never the index's. */
  lemma {:induction false} TaskPathNotIndex(id: string)
    ensures TaskPath(id) != IndexPath
  {
    assert TaskPath(id)[0] == 't' && IndexPath[0] == 'i';
  }

  /** Writing two different paths changes those two and no other. */
  lemma {:induction false} TwoWrites(files: Files, p: string, x: string, q: string, y: string)
    requires p != q
    ensures var f := files[p := x][q := y];
            p in f && f[p] == x && q in f && f[q] == y && KeepsOthers(files, f, {q, p})
  {
  }

  /**
   * A created task gets a new file holding its title heading, `index.md` is rewritten, and no
   * other file changes.
   */
  lemma {:induction false} CreateTaskWrites(files: Files, title: string, column: string)
    requires CreateTaskSpec(files, title, column).Success?
    ensures var f := CreateTaskSpec(files, title, column).value;
            var p := TaskPath(DeriveId(title));
            && p !in files && p in f && f[p] == NewTaskText(title)
            && KeepsOthers(files, f, {IndexPath, p})
  {
    var b := LoadBoardSpec(files).value;
    var created := CreateInBoard(b, title, column, files).value;
    var p := TaskPath(DeriveId(title));
    assert CreateTaskSpec(files, title, column).value == files[p := NewTaskText(title)][IndexPath := IndexText(created)];
    TaskPathNotIndex(DeriveId(title));
    TwoWrites(files, p, NewTaskText(title), IndexPath, IndexText(created));
  }

  /**
   * The next load after `createTask` sees the new task last in its column, one task more than
   * before, when the title reads back from a link and gives a non-empty id.
   */
  lemma {:induction false} CreateThenLoad(files: Files, title: string, column: string)
    requires CreateTaskSpec(files, title, column).Success?
    requires LinkTextSafe(title) && DeriveId(title) != []
    ensures IndexPath in files
    ensures var f := CreateTaskSpec(files, title, column).value;
            var b := LoadBoardSpec(files).value;
            var created := CreateInBoard(b, title, column, files).value;
            && LoadBoardSpec(f).Success?
            && SameBoard(LoadBoardSpec(f).value, created)
            && TotalTasks(LoadBoardSpec(f).value.columns) == TotalTasks(b.columns) + 1
            && LastInColumn(LoadBoardSpec(f).value.columns, ColumnIndex(b.columns, column).value, DeriveId(title), column)
  {
    var b := LoadBoardSpec(files).value;
    var created := CreateInBoard(b, title, column, files).value;
    var ci := ColumnIndex(b.columns, column).value;
    var w := files[TaskPath(DeriveId(title)) := NewTaskText(title)];
    assert CreateTaskSpec(files, title, column).value == Saved(w, created);
    LoadedSaveable(files);
    CreatedKeeps(b, title, column, files);
    EditThenLoad(w, b, created);
    CreateSucceeds(b, title, column, files);
    var r := LoadBoardSpec(Saved(w, created)).value;
    assert LastInColumn(created.columns, ci, DeriveId(title), column) by {
      assert created.columns[ci].tasks == b.columns[ci].tasks + [NewTask(title, column)];
    }
    LastInListed(r.columns, created.columns, ci, DeriveId(title), column);
  }

  /** The file `createTask` writes reads back, through `getTask`'s parser, as its title alone. */
  lemma {:induction false} NewTaskReads(title: string, load: string -> YamlLoad)
    requires Word(title)
    ensures ReadTask(NewTaskText(title), load) == TaskDoc(map[], TaskBody(title, "", [], [], []))
  {
    var text := NewTaskText(title);
    assert text[0] == '#';
    assert SplitTaskFrontmatter(text) == None;
    var head := ["# " + title, ""];
    UnlinesPair([], "# " + title, "");
    assert [] + head == head;
    assert ("# " + title) + "\n" + "" + "\n" == text;
    assert '\n' !in "# " + title;
    SplitUnlines(head);
    ScanAppend(BodyStep, InitialBodyScan, head, [""]);
    TaskRoundTrip.BodyTitleRead();
    TaskRoundTrip.BodyBlankKept();
    HeadScan(BodyStep, title);
    var s1 := InitialBodyScan.(title := title, section := Description);
    ScanOne(BodyStep, s1, "");
    TaskRoundTrip.BlankStep(s1);
    assert Unlines(head) == text;
    assert SplitLines(text) == head + [""];
    assert Scan(BodyStep, InitialBodyScan, SplitLines(text)) == s1;
    assert JoinWith([], "\n") == "" && Trim("") == "";
    assert FinishBody(s1) == TaskBody(title, "", [], [], []);
  }

  /** Where a created task sits when no column held its id before. */
  lemma {:induction false} CreatedLocation(b: Board, title: string, column: string, files: Files)
    requires CreateInBoard(b, title, column, files).Success?
    requires forall j :: 0 <= j < |b.columns| ==> !HoldsId(b.columns[j], DeriveId(title))
    ensures var ci := ColumnIndex(b.columns, column).value;
            TaskLocation(CreateInBoard(b, title, column, files).value.columns, DeriveId(title))
              == Some((ci, |b.columns[ci].tasks|))
  {
    var id := DeriveId(title);
    var ci := ColumnIndex(b.columns, column).value;
    var n := |b.columns[ci].tasks|;
    var cs := CreateInBoard(b, title, column, files).value.columns;
    assert cs == b.columns[ci := b.columns[ci].(tasks := b.columns[ci].tasks + [NewTask(title, column)])];
    assert cs[ci].tasks[n].id == id;
    assert HoldsId(cs[ci], id);
    assert forall c, k :: 0 <= c < |cs| && 0 <= k < |cs[c].tasks| && cs[c].tasks[k].id == id ==> c == ci && k == n;
    var loc := TaskLocation(cs, id).value;
    assert cs[loc.0].tasks[loc.1].id == id;
  }

  /**
   * `getTask` after `createTask`, for a title that is one trimmed word-line the link keeps and
   * an id no column held: the task reads back with that title, no metadata and nothing else.
   */
  lemma {:induction false} CreateThenGet(files: Files, title: string, column: string, load: string -> YamlLoad)
    requires CreateTaskSpec(files, title, column).Success?
    requires Word(title) && LinkTextSafe(title) && DeriveId(title) != []
    requires IndexPath in files && Found(LoadBoardSpec(files).value, DeriveId(title)).None?
    ensures GetTaskSpec(CreateTaskSpec(files, title, column).value, DeriveId(title), load)
            == Success(TaskDoc(map[], TaskBody(title, "", [], [], [])))
  {
    var id := DeriveId(title);
    var f := CreateTaskSpec(files, title, column).value;
    var b := LoadBoardSpec(files).value;
    var created := CreateInBoard(b, title, column, files).value;
    var ci := ColumnIndex(b.columns, column).value;
    CreateThenLoad(files, title, column);
    CreateTaskWrites(files, title, column);
    var r := LoadBoardSpec(f).value;
    CreatedLocation(b, title, column, files);
    ListedIds(r.columns, created.columns);
    TaskLocationSameIds(r.columns, created.columns, id);
    var n := |b.columns[ci].tasks|;
    assert created.columns[ci].tasks[n] == NewTask(title, column);
    assert SameTask(r.columns[ci].tasks[n], created.columns[ci].tasks[n]);
    assert Found(r, id) == Some(r.columns[ci].tasks[n]);
    NewTaskReads(title, load);
  }

  // ---------------------------------------------------------------------------------------
  // deleteTask on disk

  /** The two errors of `deleteTask`, each exactly when the source throws it. */
  lemma {:induction false} DeleteTaskErrors(files: Files, id: string)
    ensures DeleteTaskSpec(files, id) == Failure(BoardIndexNotFound) <==> IndexPath !in files
    ensures IndexPath in files ==>
              var cs := LoadBoardSpec(files).value.columns;
              (DeleteTaskSpec(files, id) == Failure(TaskNotFound) <==> forall j :: 0 <= j < |cs| ==> !HoldsId(cs[j], id))
  {
    if IndexPath in files {
      var b := LoadBoardSpec(files).value;
      if DeleteInBoard(b, id).Failure? {
        assert DeleteTaskSpec(files, id) == Failure(TaskNotFound);
      } else {
        assert DeleteTaskSpec(files, id).Success?;
      }
    }
  }

  /**
   * A delete removes the found task's file, rewrites `index.md` and changes nothing else; the
   * next load sees the board without the task's entries in that column, with fewer tasks.
   */
  lemma {:induction false} DeleteTaskPersists(files: Files, id: string)
    requires DeleteTaskSpec(files, id).Success?
    ensures IndexPath in files && Found(LoadBoardSpec(files).value, id).Some?
    ensures var f := DeleteTaskSpec(files, id).value;
            var b := LoadBoardSpec(files).value;
            var p := Found(b, id).value.path;
            && KeepsOthers(files, f, {IndexPath, p})
            && (p != IndexPath ==> p !in f)
            && LoadBoardSpec(f).Success?
            && SameBoard(LoadBoardSpec(f).value, DeleteInBoard(b, id).value)
            && TotalTasks(LoadBoardSpec(f).value.columns) < TotalTasks(b.columns)
  {
    var b := LoadBoardSpec(files).value;
    var deleted := DeleteInBoard(b, id).value;
    var p := Found(b, id).value.path;
    var w := Unlinked(files, p);
    assert DeleteTaskSpec(files, id).value == Saved(w, deleted);
    LoadedSaveable(files);
    DeletedKeeps(b, id);
    EditThenLoad(w, b, deleted);
    DeleteSucceeds(b, id);
  }

  /** When only one column held the id, no column holds it after the delete. */
  lemma {:induction false} DeleteClears(b: Board, id: string)
    requires DeleteInBoard(b, id).Success?
    requires forall i, j :: 0 <= i < j < |b.columns| && HoldsId(b.columns[i], id) ==> !HoldsId(b.columns[j], id)
    ensures forall j :: 0 <= j < |b.columns| ==> !HoldsId(DeleteInBoard(b, id).value.columns[j], id)
  {
    var deleted := DeleteInBoard(b, id).value;
    var loc := TaskLocation(b.columns, id).value;
    var c := loc.0;
    DeleteSucceeds(b, id);
    assert b.columns[c].tasks[loc.1].id == id;
    assert HoldsId(b.columns[c], id);
    forall j | 0 <= j < |b.columns| ensures !HoldsId(deleted.columns[j], id) {
      if j != c {
        assert deleted.columns[j] == b.columns[j];
      }
    }
  }

  /**
   * `getTask` after `deleteTask` fails when only one column held the id; a later column that
   * also held it would still be found.
   */
  lemma {:induction false} DeleteThenGet(files: Files, id: string, load: string -> YamlLoad)
    requires DeleteTaskSpec(files, id).Success?
    requires IndexPath in files
    requires var cs := LoadBoardSpec(files).value.columns;
             forall i, j :: 0 <= i < j < |cs| && HoldsId(cs[i], id) ==> !HoldsId(cs[j], id)
    ensures GetTaskSpec(DeleteTaskSpec(files, id).value, id, load) == Failure(TaskFileNotFound)
  {
    var b := LoadBoardSpec(files).value;
    var deleted := DeleteInBoard(b, id).value;
    DeleteClears(b, id);
    DeleteTaskPersists(files, id);
    var r := LoadBoardSpec(DeleteTaskSpec(files, id).value).value;
    ListedIds(r.columns, deleted.columns);
    TaskLocationSameIds(r.columns, deleted.columns, id);
  }

  // ---------------------------------------------------------------------------------------
  // updateTask and getTask on disk

  /** The errors of `updateTask`: no index, or `Task not found` for a missing entry or file. */
  lemma {:induction false} UpdateTaskErrors(files: Files, id: string, data: TaskBody, metadata: Metadata,
                         updatedAt: string, createdAt: string, dump: Metadata -> Option<string>)
    ensures UpdateTaskSpec(files, id, data, metadata, updatedAt, createdAt, dump) == Failure(BoardIndexNotFound)
            <==> IndexPath !in files
    ensures IndexPath in files ==>
              var t := Found(LoadBoardSpec(files).value, id);
              (UpdateTaskSpec(files, id, data, metadata, updatedAt, createdAt, dump) == Failure(TaskNotFound)
               <==> t.None? || t.value.path !in files)
  {
    if IndexPath in files {
      var b := LoadBoardSpec(files).value;
      var text := FileText(Stamp(metadata, updatedAt, createdAt), BodyText(data), dump);
      assert UpdateTaskSpec(files, id, data, metadata, updatedAt, createdAt, dump) == UpdateOnBoard(files, b, id, text, data.title);
      UpdateOnBoardErrors(files, b, id, text, data.title);
    }
  }

  lemma {:induction false} UpdateOnBoardErrors(files: Files, b: Board, id: string, text: string, title: string)
    ensures UpdateOnBoard(files, b, id, text, title) != Failure(BoardIndexNotFound)
    ensures UpdateOnBoard(files, b, id, text, title) == Failure(TaskNotFound)
            <==> Found(b, id).None? || Found(b, id).value.path !in files
  {
  }

  /** Writing a task file and then, or not, `index.md` leaves every other file alone. */
  lemma {:induction false} WriteThenIndex(files: Files, p: string, text: string, index: string)
    ensures KeepsOthers(files, files[p := text], {IndexPath, p})
    ensures KeepsOthers(files, files[p := text][IndexPath := index], {IndexPath, p})
    ensures p != IndexPath ==> files[p := text][IndexPath := index][p] == text
  {
  }

  /** `updateTask` on a loaded board: the files it writes. */
  lemma {:induction false} UpdateOnBoardWrites(files: Files, b: Board, id: string, text: string, title: string)
    requires UpdateOnBoard(files, b, id, text, title).Success?
    ensures Found(b, id).Some? && Found(b, id).value.path in files
    ensures var f := UpdateOnBoard(files, b, id, text, title).value;
            var p := Found(b, id).value.path;
            && KeepsOthers(files, f, {IndexPath, p})
            && (!TitleChanges(Found(b, id).value, title) ==> f == files[p := text])
            && (p != IndexPath ==> p in f && f[p] == text)
  {
    var loc := TaskLocation(b.columns, id).value;
    var t := b.columns[loc.0].tasks[loc.1];
    assert Found(b, id).value == t;
    var f := UpdateOnBoard(files, b, id, text, title).value;
    if TitleChanges(t, title) {
      WriteThenIndex(files, t.path, text, IndexText(RetitleAt(b, loc.0, loc.1, title)));
    } else {
      WriteThenIndex(files, t.path, text, "");
    }
  }

  /**
   * `updateTask` writes the task's file from the stamped metadata and the body, touches
   * `index.md` only when the title changes, and no other file.
   */
  lemma {:induction false} UpdateTaskWrites(files: Files, id: string, data: TaskBody, metadata: Metadata,
                         updatedAt: string, createdAt: string, dump: Metadata -> Option<string>)
    requires UpdateTaskSpec(files, id, data, metadata, updatedAt, createdAt, dump).Success?
    ensures IndexPath in files && Found(LoadBoardSpec(files).value, id).Some?
    ensures var f := UpdateTaskSpec(files, id, data, metadata, updatedAt, createdAt, dump).value;
            var t := Found(LoadBoardSpec(files).value, id).value;
            var text := FileText(Stamp(metadata, updatedAt, createdAt), BodyText(data), dump);
            && t.path in files
            && KeepsOthers(files, f, {IndexPath, t.path})
            && (!TitleChanges(t, data.title) ==> f == files[t.path := text])
            && (t.path != IndexPath ==> t.path in f && f[t.path] == text)
  {
    var b := LoadBoardSpec(files).value;
    var text := FileText(Stamp(metadata, updatedAt, createdAt), BodyText(data), dump);
    assert UpdateTaskSpec(files, id, data, metadata, updatedAt, createdAt, dump) == UpdateOnBoard(files, b, id, text, data.title);
    UpdateOnBoardWrites(files, b, id, text, data.title);
  }

  /** The board `updateTask` leaves listed: the one task retitled when the title changes. */
  function UpdatedBoard(b: Board, id: string, title: string): Board {
    match TaskLocation(b.columns, id)
    case None => b
    case Some(loc) =>
      if TitleChanges(b.columns[loc.0].tasks[loc.1], title) then RetitleAt(b, loc.0, loc.1, title) else b
  }

  /** The update keeps every id where it was, and so the found task's path. */
  lemma {:induction false} UpdatedBoardIds(b: Board, id: string, title: string)
    ensures SameIds(UpdatedBoard(b, id, title).columns, b.columns)
    ensures Found(b, id).Some? ==>
              Found(UpdatedBoard(b, id, title), id).Some? && Found(UpdatedBoard(b, id, title), id).value.path == Found(b, id).value.path
  {
    var u := UpdatedBoard(b, id, title);
    if TaskLocation(b.columns, id).Some? {
      var loc := TaskLocation(b.columns, id).value;
      RetitleOnly(b, loc.0, loc.1, title);
      assert SameIds(u.columns, b.columns);
      TaskLocationSameIds(u.columns, b.columns, id);
      assert Found(u, id).value == u.columns[loc.0].tasks[loc.1];
    }
  }

  /** Boards that list the same tasks find an id at tasks with the same path. */
  lemma {:induction false} FoundSame(b1: Board, b2: Board, id: string)
    requires SameBoard(b1, b2)
    ensures Found(b1, id).Some? <==> Found(b2, id).Some?
    ensures Found(b1, id).Some? ==> Found(b1, id).value.path == Found(b2, id).value.path
  {
    ListedIds(b1.columns, b2.columns);
    TaskLocationSameIds(b1.columns, b2.columns, id);
  }

  /** Saving a retitled board and loading it again gives the retitled board back. */
  lemma {:induction false} RetitleThenLoad(files: Files, b: Board, c: nat, k: nat, title: string)
    requires Printable(b) && Consistent(b) && c < |b.columns| && k < |b.columns[c].tasks| && LinkTextSafe(title)
    ensures LoadBoardSpec(Saved(files, RetitleAt(b, c, k, title))).Success?
    ensures SameBoard(LoadBoardSpec(Saved(files, RetitleAt(b, c, k, title))).value, RetitleAt(b, c, k, title))
  {
    RetitledKeeps(b, c, k, title);
    SaveThenLoad(files, RetitleAt(b, c, k, title));
  }

  /** Writing a task file leaves what the index lists unchanged, previews aside. */
  lemma {:induction false} TaskWriteThenLoad(files: Files, p: string, text: string)
    requires IndexPath in files && p != IndexPath
    ensures LoadBoardSpec(files[p := text]).Success?
    ensures SameBoard(LoadBoardSpec(files[p := text]).value, LoadBoardSpec(files).value)
  {
    assert files[p := text][IndexPath] == files[IndexPath];
    ParseIndexSame(files[IndexPath], files[p := text], files);
  }

  /**
   * The reload after `updateTask` on a saveable board: the retitled board when the title
   * changes, and otherwise what `index.md` listed before.
   */
  lemma {:induction false} UpdateOnBoardReload(files: Files, b: Board, id: string, text: string, title: string)
    requires UpdateOnBoard(files, b, id, text, title).Success?
    requires IndexPath in files && Printable(b) && Consistent(b)
    requires Found(b, id).Some? && Found(b, id).value.path != IndexPath
    requires LinkTextSafe(title)
    ensures var f := UpdateOnBoard(files, b, id, text, title).value;
            && LoadBoardSpec(f).Success?
            && (TitleChanges(Found(b, id).value, title) ==> SameBoard(LoadBoardSpec(f).value, UpdatedBoard(b, id, title)))
            && (!TitleChanges(Found(b, id).value, title) ==> SameBoard(LoadBoardSpec(f).value, LoadBoardSpec(files).value))
  {
    var loc := TaskLocation(b.columns, id).value;
    var t := b.columns[loc.0].tasks[loc.1];
    assert Found(b, id).value == t;
    var w := files[t.path := text];
    if TitleChanges(t, title) {
      assert UpdateOnBoard(files, b, id, text, title).value == Saved(w, RetitleAt(b, loc.0, loc.1, title));
      RetitleThenLoad(w, b, loc.0, loc.1, title);
    } else {
      assert UpdateOnBoard(files, b, id, text, title).value == w;
      TaskWriteThenLoad(files, t.path, text);
    }
  }

  /**
   * The next load after `updateTask` sees the board with the task retitled when the title
   * changed (to a title the link keeps) and as it was otherwise, previews aside, as long as
   * the task's file is not `index.md` itself.
   */
  lemma {:induction false} UpdateThenLoad(files: Files, id: string, data: TaskBody, metadata: Metadata,
                       updatedAt: string, createdAt: string, dump: Metadata -> Option<string>)
    requires UpdateTaskSpec(files, id, data, metadata, updatedAt, createdAt, dump).Success?
    requires IndexPath in files && Found(LoadBoardSpec(files).value, id).Some?
    requires Found(LoadBoardSpec(files).value, id).value.path != IndexPath
    requires LinkTextSafe(data.title)
    ensures var f := UpdateTaskSpec(files, id, data, metadata, updatedAt, createdAt, dump).value;
            && LoadBoardSpec(f).Success?
            && SameBoard(LoadBoardSpec(f).value, UpdatedBoard(LoadBoardSpec(files).value, id, data.title))
  {
    var b := LoadBoardSpec(files).value;
    var text := FileText(Stamp(metadata, updatedAt, createdAt), BodyText(data), dump);
    assert UpdateTaskSpec(files, id, data, metadata, updatedAt, createdAt, dump) == UpdateOnBoard(files, b, id, text, data.title);
    LoadedSaveable(files);
    UpdateOnBoardReload(files, b, id, text, data.title);
  }

  /**
   * `getTask` after `updateTask` reads back the body that was written and the metadata the
   * YAML reader makes of the stamped metadata's dump.
   */
  lemma {:induction false} UpdateThenGet(files: Files, id: string, data: TaskBody, metadata: Metadata,
                      updatedAt: string, createdAt: string, dump: Metadata -> Option<string>,
                      load: string -> YamlLoad, y: string, m': Metadata)
    requires UpdateTaskSpec(files, id, data, metadata, updatedAt, createdAt, dump).Success?
    requires IndexPath in files && Found(LoadBoardSpec(files).value, id).Some?
    requires Found(LoadBoardSpec(files).value, id).value.path != IndexPath
    requires LinkTextSafe(data.title) && Renderable(data)
    requires dump(Stamp(metadata, updatedAt, createdAt)) == Some(y + "\n") && FenceFree(y) && load(y) == Loaded(m')
    ensures GetTaskSpec(UpdateTaskSpec(files, id, data, metadata, updatedAt, createdAt, dump).value, id, load)
            == Success(TaskDoc(m', data))
  {
    var b := LoadBoardSpec(files).value;
    var text := FileText(Stamp(metadata, updatedAt, createdAt), BodyText(data), dump);
    var f := UpdateTaskSpec(files, id, data, metadata, updatedAt, createdAt, dump).value;
    assert UpdateTaskSpec(files, id, data, metadata, updatedAt, createdAt, dump) == UpdateOnBoard(files, b, id, text, data.title);
    UpdateOnBoardWrites(files, b, id, text, data.title);
    LoadedSaveable(files);
    UpdateOnBoardReload(files, b, id, text, data.title);
    var r := LoadBoardSpec(f).value;
    UpdatedBoardIds(b, id, data.title);
    FoundSame(r, UpdatedBoard(b, id, data.title), id);
    ReadWrittenTask(Stamp(metadata, updatedAt, createdAt), data, dump, load, y, m');
  }

  /** The errors of `getTask`: no index, or `Task file not found` for a missing entry or file. */
  lemma {:induction false} GetTaskErrors(files: Files, id: string, load: string -> YamlLoad)
    ensures GetTaskSpec(files, id, load) == Failure(BoardIndexNotFound) <==> IndexPath !in files
    ensures IndexPath in files ==>
              var t := Found(LoadBoardSpec(files).value, id);
              (GetTaskSpec(files, id, load) == Failure(TaskFileNotFound) <==> t.None? || t.value.path !in files)
  {
  }

  /** A board `createBoard` has just made loads as three empty columns. */
  lemma {:induction false} NewBoardLoads(name: string)
    requires '\n' !in name
    ensures LoadBoardSpec(NewBoardFiles(name))
            == Success(Board(DefaultBoardTitle(name), [Column("Backlog", []), Column("In Progress", []), Column("Done", [])],
                             ["In Progress"], ["Done"]))
  {
    ParseDefaultIndex(name, NewBoardFiles(name));
  }
}
