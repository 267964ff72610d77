/**
 * The edits `moveTask`, `createTask`, `deleteTask` and `updateTask` make to a loaded board
 * before saving it, and the column-by-column search for a task id that `getTask`,
 * `updateTask` and `deleteTask` share.
 */
module BoardEdits {
  import opened Wrappers
  import opened Links
  import opened BoardModel

  // ---------------------------------------------------------------------------------------
  // Finding a task

  /**
   * The loop over `board.columns` that stops at the first column whose `find` succeeds:
   * the column index and the index of the first task with the id in it.
   */
  method FindTask(cols: seq<Column>, id: string) returns (loc: Option<(nat, nat)>)
    ensures loc == TaskLocation(cols, id)
  {
    var i := 0;
    loc := None;
    TaskLocationFromStart(cols, id);
    while i < |cols|
      invariant 0 <= i <= |cols|
      invariant TaskLocation(cols, id) == TaskLocationFrom(cols, id, i)
    {
      match TaskIndex(cols[i].tasks, id)
      case Some(k) =>
        loc := Some((i, k));
        return;
      case None =>
        i := i + 1;
    }
  }

  /** The search started at column `i`, with its indices counted from the front. */
  function TaskLocationFrom(cols: seq<Column>, id: string, i: nat): (r: Option<(nat, nat)>)
    requires i <= |cols|
    decreases |cols| - i
  {
    if i == |cols| then None
    else match TaskIndex(cols[i].tasks, id)
      case Some(k) => Some((i, k))
      case None => TaskLocationFrom(cols, id, i + 1)
  }

  /** The search from column `i` is the search on the columns from `i` on, shifted by `i`. */
  lemma {:induction false} TaskLocationFromShift(cols: seq<Column>, id: string, i: nat)
    requires i <= |cols|
    ensures TaskLocationFrom(cols, id, i)
            == match TaskLocation(cols[i..], id)
               case None => None
               case Some(loc) => Some((loc.0 + i, loc.1))
    decreases |cols| - i
  {
    if i < |cols| {
      var rest := cols[i..];
      assert rest[0] == cols[i] && rest[1..] == cols[i + 1..];
      TaskLocationUnfold(rest, id);
      if TaskIndex(cols[i].tasks, id).None? {
        TaskLocationFromShift(cols, id, i + 1);
        var r := TaskLocation(cols[i + 1..], id);
        assert r.Some? ==> TaskLocation(rest, id) == Some((r.value.0 + 1, r.value.1));
      }
    }
  }

  /** One step of the search over a non-empty list of columns. */
  lemma {:induction false} TaskLocationUnfold(cols: seq<Column>, id: string)
    requires cols != []
    ensures TaskLocation(cols, id)
            == match TaskIndex(cols[0].tasks, id)
               case Some(k) => Some((0, k))
               case None =>
                 match TaskLocation(cols[1..], id)
                 case None => None
                 case Some(loc) => Some((loc.0 + 1, loc.1))
  {
  }

  /** The search started at the first column is `TaskLocation`. */
  lemma {:induction false} TaskLocationFromStart(cols: seq<Column>, id: string)
    ensures TaskLocationFrom(cols, id, 0) == TaskLocation(cols, id)
  {
    TaskLocationFromShift(cols, id, 0);
    assert cols[0..] == cols;
  }

  // ---------------------------------------------------------------------------------------
  // moveTask

  /** `splice(k, 1)`: the list without its `k`-th element. */
  function RemoveAt<T>(s: seq<T>, k: nat): (r: seq<T>)
    requires k < |s|
    ensures |r| == |s| - 1
    ensures forall i :: 0 <= i < k ==> r[i] == s[i]
    ensures forall i :: k <= i < |r| ==> r[i] == s[i + 1]
    ensures multiset(r) + multiset{s[k]} == multiset(s)
  {
    assert s == s[..k] + [s[k]] + s[k + 1..];
    s[..k] + s[k + 1..]
  }

  /**
   * The edit itself: the `k`-th task of column `si` is taken out and appended, with its column
   * set to `target`, to column `ti`. When `si == ti` the append sees the shortened list, the
   * way the source's `splice` and `push` on one array do.
   */
  function MoveAt(b: Board, si: nat, k: nat, ti: nat, target: string): (r: Board)
    requires si < |b.columns| && ti < |b.columns| && k < |b.columns[si].tasks|
    ensures |r.columns| == |b.columns|
    ensures r.title == b.title && r.startedColumns == b.startedColumns && r.completedColumns == b.completedColumns
    ensures forall j :: 0 <= j < |b.columns| ==> r.columns[j].name == b.columns[j].name
    ensures forall j :: 0 <= j < |b.columns| && j != si && j != ti ==> r.columns[j] == b.columns[j]
    ensures si != ti ==> r.columns[si].tasks == RemoveAt(b.columns[si].tasks, k)
                         && r.columns[ti].tasks == b.columns[ti].tasks + [b.columns[si].tasks[k].(column := target)]
    ensures si == ti ==> r.columns[si].tasks == RemoveAt(b.columns[si].tasks, k) + [b.columns[si].tasks[k].(column := target)]
    ensures TotalTasks(r.columns) == TotalTasks(b.columns)
  {
    var src := b.columns[si];
    var task := src.tasks[k];
    var cols1 := b.columns[si := src.(tasks := RemoveAt(src.tasks, k))];
    var cols2 := cols1[ti := cols1[ti].(tasks := cols1[ti].tasks + [task.(column := target)])];
    TotalTasksUpdate(b.columns, si, src.(tasks := RemoveAt(src.tasks, k)));
    TotalTasksUpdate(cols1, ti, cols1[ti].(tasks := cols1[ti].tasks + [task.(column := target)]));
    b.(columns := cols2)
  }

  /**
   * `moveTask` on the loaded board: `Column not found` when either name is missing, then
   * `Task not found in source column` when the first column with the source name lacks the
   * id; otherwise the first task with the id moves to the end of the first column with the
   * target name.
   */
  function MoveInBoard(b: Board, id: string, source: string, target: string): (r: Result<Board, KanbanError>)
  {
    match (ColumnIndex(b.columns, source), ColumnIndex(b.columns, target))
    case (Some(si), Some(ti)) =>
      (match TaskIndex(b.columns[si].tasks, id)
       case None => Failure(TaskNotFoundInSourceColumn)
       case Some(k) => Success(MoveAt(b, si, k, ti, target)))
    case _ => Failure(ColumnNotFound)
  }

  /** Some column is named `name`. */
  predicate HasColumn(b: Board, name: string) {
    exists j :: 0 <= j < |b.columns| && b.columns[j].name == name
  }

  /** The two errors of `moveTask`, each exactly when the source throws it. */
  lemma {:induction false} MoveErrors(b: Board, id: string, source: string, target: string)
    ensures MoveInBoard(b, id, source, target) == Failure(ColumnNotFound)
            <==> !HasColumn(b, source) || !HasColumn(b, target)
    ensures MoveInBoard(b, id, source, target) == Failure(TaskNotFoundInSourceColumn)
            <==> HasColumn(b, source) && HasColumn(b, target)
                 && !HoldsId(b.columns[ColumnIndex(b.columns, source).value], id)
  {
    var si, ti := ColumnIndex(b.columns, source), ColumnIndex(b.columns, target);
    if si.Some? && ti.Some? {
      var k := TaskIndex(b.columns[si.value].tasks, id);
      if k.Some? {
        assert HoldsId(b.columns[si.value], id);
      }
    }
  }

  /**
   * A successful move is `MoveAt` at the first source column, the first task with the id and
   * the first target column: it keeps the board's title, its lists and its count of tasks,
   * leaves every column other than the source and the target as it was, and lands the task, with `column` set to the target,
   * at the end of the target column.
   */
  lemma {:induction false} MoveSucceeds(b: Board, id: string, source: string, target: string)
    requires MoveInBoard(b, id, source, target).Success?
    ensures var r := MoveInBoard(b, id, source, target).value;
            var si, ti := ColumnIndex(b.columns, source).value, ColumnIndex(b.columns, target).value;
            var k := TaskIndex(b.columns[si].tasks, id).value;
            && r == MoveAt(b, si, k, ti, target)
            && r.title == b.title && r.startedColumns == b.startedColumns && r.completedColumns == b.completedColumns
            && TotalTasks(r.columns) == TotalTasks(b.columns)
            && |r.columns| == |b.columns|
            && (forall j :: 0 <= j < |b.columns| && j != si && j != ti ==> r.columns[j] == b.columns[j])
            && r.columns[ti].tasks[|r.columns[ti].tasks| - 1] == b.columns[si].tasks[k].(column := target)
            && r.columns[ti].name == target
  {
    var si, ti := ColumnIndex(b.columns, source).value, ColumnIndex(b.columns, target).value;
    var k := TaskIndex(b.columns[si].tasks, id).value;
    assert MoveInBoard(b, id, source, target).value == MoveAt(b, si, k, ti, target);
  }

  // ---------------------------------------------------------------------------------------
  // createTask

  /** The board-relative path of a task's file. */
  function TaskPath(id: string): string {
    "tasks/" + id + ".md"
  }

  /** The file a new task starts with: its title as a heading and a blank line. */
  function NewTaskText(title: string): string {
    "# " + title + "\n\n"
  }

  /** The reference `createTask` appends; it carries no description. */
  function NewTask(title: string, column: string): TaskRef {
    TaskRef(DeriveId(title), title, "", column, TaskPath(DeriveId(title)))
  }

  /**
   * `createTask` on the loaded board: `Column not found`, then `Task with ID ... already
   * exists` when the file is there; otherwise the new task goes to the end of the column.
   */
  function CreateInBoard(b: Board, title: string, column: string, files: Files): (r: Result<Board, KanbanError>)
    ensures r == Failure(ColumnNotFound) <==> !HasColumn(b, column)
    ensures r == Failure(TaskAlreadyExists(DeriveId(title))) <==> HasColumn(b, column) && TaskPath(DeriveId(title)) in files
    ensures r.Failure? <==> !HasColumn(b, column) || TaskPath(DeriveId(title)) in files
  {
    match ColumnIndex(b.columns, column)
    case None => Failure(ColumnNotFound)
    case Some(ci) =>
      if TaskPath(DeriveId(title)) in files then Failure(TaskAlreadyExists(DeriveId(title)))
      else Success(b.(columns := b.columns[ci := b.columns[ci].(tasks := b.columns[ci].tasks + [NewTask(title, column)])]))
  }

  /**
   * A created task sits at the end of the first column with the name, with a slug id; no
   * other column, nor the title or the lists, changes and the board holds one task more.
   */
  lemma {:induction false} CreateSucceeds(b: Board, title: string, column: string, files: Files)
    requires CreateInBoard(b, title, column, files).Success?
    ensures var r := CreateInBoard(b, title, column, files).value;
            var ci := ColumnIndex(b.columns, column).value;
            && r.title == b.title && r.startedColumns == b.startedColumns && r.completedColumns == b.completedColumns
            && |r.columns| == |b.columns|
            && (forall j :: 0 <= j < |b.columns| && j != ci ==> r.columns[j] == b.columns[j])
            && r.columns[ci] == Column(column, b.columns[ci].tasks + [NewTask(title, column)])
            && TotalTasks(r.columns) == TotalTasks(b.columns) + 1
            && IsSlug(NewTask(title, column).id)
  {
    var ci := ColumnIndex(b.columns, column).value;
    TotalTasksUpdate(b.columns, ci, b.columns[ci].(tasks := b.columns[ci].tasks + [NewTask(title, column)]));
  }

  // ---------------------------------------------------------------------------------------
  // deleteTask

  /** `filter(t => t.id !== id)`. */
  function RemoveId(ts: seq<TaskRef>, id: string): (r: seq<TaskRef>)
    ensures |r| <= |ts|
    ensures forall t :: t in r <==> t in ts && t.id != id
    decreases |ts|
  {
    if ts == [] then []
    else (if ts[0].id == id then [] else [ts[0]]) + RemoveId(ts[1..], id)
  }

  /** Filtering a concatenation filters each part: the kept tasks stay in their order. */
  lemma {:induction false} RemoveIdAppend(a: seq<TaskRef>, b: seq<TaskRef>, id: string)
    ensures RemoveId(a + b, id) == RemoveId(a, id) + RemoveId(b, id)
    decreases |a|
  {
    if a == [] {
      assert a + b == b;
    } else {
      assert (a + b)[0] == a[0] && (a + b)[1..] == a[1..] + b;
      RemoveIdAppend(a[1..], b, id);
    }
  }

  /** Filtering a list without the id changes nothing. */
  lemma {:induction false} RemoveIdAbsent(ts: seq<TaskRef>, id: string)
    requires forall j :: 0 <= j < |ts| ==> ts[j].id != id
    ensures RemoveId(ts, id) == ts
    decreases |ts|
  {
    if ts != [] {
      RemoveIdAbsent(ts[1..], id);
    }
  }

  /** Filtering a list that holds the id removes at least one entry. */
  lemma {:induction false} RemoveIdShrinks(ts: seq<TaskRef>, id: string, k: nat)
    requires k < |ts| && ts[k].id == id
    ensures |RemoveId(ts, id)| < |ts|
    decreases |ts|
  {
    if k > 0 {
      RemoveIdShrinks(ts[1..], id, k - 1);
    }
  }

  /**
   * `deleteTask` on the loaded board: `Task not found` when no column holds the id; otherwise
   * every entry with the id goes from the first column holding it.
   */
  function DeleteInBoard(b: Board, id: string): (r: Result<Board, KanbanError>)
    ensures r.Failure? <==> forall j :: 0 <= j < |b.columns| ==> !HoldsId(b.columns[j], id)
    ensures r.Failure? ==> r.error == TaskNotFound
  {
    match TaskLocation(b.columns, id)
    case None => Failure(TaskNotFound)
    case Some(loc) =>
      Success(b.(columns := b.columns[loc.0 := b.columns[loc.0].(tasks := RemoveId(b.columns[loc.0].tasks, id))]))
  }

  /**
   * A successful delete filters the first column holding the id, so it keeps that column's
   * other tasks in order and leaves no entry with the id there; it leaves the title, the
   * lists and every other column as it was (later ones may still hold the id) and shrinks
   * the board.
   */
  lemma {:induction false} DeleteSucceeds(b: Board, id: string)
    requires DeleteInBoard(b, id).Success?
    ensures var r := DeleteInBoard(b, id).value;
            var c := TaskLocation(b.columns, id).value.0;
            && |r.columns| == |b.columns|
            && (forall j :: 0 <= j < |b.columns| && j != c ==> r.columns[j] == b.columns[j])
            && r.title == b.title && r.startedColumns == b.startedColumns && r.completedColumns == b.completedColumns
            && r.columns[c] == Column(b.columns[c].name, RemoveId(b.columns[c].tasks, id))
            && !HoldsId(r.columns[c], id)
            && (forall t :: t in r.columns[c].tasks <==> t in b.columns[c].tasks && t.id != id)
            && TotalTasks(r.columns) < TotalTasks(b.columns)
  {
    var loc := TaskLocation(b.columns, id).value;
    var c := loc.0;
    var r := DeleteInBoard(b, id).value;
    var kept := RemoveId(b.columns[c].tasks, id);
    RemoveIdShrinks(b.columns[c].tasks, id, loc.1);
    TotalTasksUpdate(b.columns, c, b.columns[c].(tasks := kept));
    assert !HoldsId(r.columns[c], id) by {
      forall k | 0 <= k < |kept| ensures kept[k].id != id {
        assert kept[k] in kept;
      }
    }
  }

  // ---------------------------------------------------------------------------------------
  // updateTask

  /** `foundTask.title = data.title` on the task at `loc`. */
  function RetitleAt(b: Board, c: nat, k: nat, title: string): (r: Board)
    requires c < |b.columns| && k < |b.columns[c].tasks|
  {
    var col := b.columns[c];
    b.(columns := b.columns[c := col.(tasks := col.tasks[k := col.tasks[k].(title := title)])])
  }

  /** Retitling changes the one task's title and nothing else on the board. */
  lemma {:induction false} RetitleOnly(b: Board, c: nat, k: nat, title: string)
    requires c < |b.columns| && k < |b.columns[c].tasks|
    ensures var r := RetitleAt(b, c, k, title);
            && r.title == b.title && r.startedColumns == b.startedColumns && r.completedColumns == b.completedColumns
            && |r.columns| == |b.columns|
            && (forall j :: 0 <= j < |b.columns| && j != c ==> r.columns[j] == b.columns[j])
            && r.columns[c].name == b.columns[c].name
            && |r.columns[c].tasks| == |b.columns[c].tasks|
            && (forall i :: 0 <= i < |b.columns[c].tasks| && i != k ==> r.columns[c].tasks[i] == b.columns[c].tasks[i])
            && r.columns[c].tasks[k] == b.columns[c].tasks[k].(title := title)
            && TotalTasks(r.columns) == TotalTasks(b.columns)
  {
    var col := b.columns[c];
    TotalTasksUpdate(b.columns, c, col.(tasks := col.tasks[k := col.tasks[k].(title := title)]));
  }

  /** The index is rewritten only for a non-empty title that differs from the listed one. */
  predicate TitleChanges(t: TaskRef, title: string) {
    title != [] && title != t.title
  }
}
