/**
 * The board as the engine holds it in memory after reading `index.md`: ordered columns of task
 * references, plus the started and completed column lists from the front matter.
 */
module BoardModel {
  import opened Wrappers

  /** The contents of a board's `.kanbn` directory, by path relative to that directory. */
  type Files = map<string, string>

  const IndexPath: string := "index.md"

  /** A task as listed in the index. `path` is the link target, relative to the board directory. */
  datatype TaskRef = TaskRef(id: string, title: string, description: string, column: string, path: string)

  datatype Column = Column(name: string, tasks: seq<TaskRef>)

  datatype Board = Board(title: string, columns: seq<Column>, startedColumns: seq<string>, completedColumns: seq<string>)

  const DefaultTitle: string := "Kanban Board"

  /** The board `parseIndex` starts from. */
  const InitialBoard: Board := Board(DefaultTitle, [], [], [])

  /** The errors the engine throws, one per message. */
  datatype KanbanError =
    | BoardIndexNotFound          // "Board index not found at ..."
    | ColumnNotFound              // "Column not found"
    | TaskNotFoundInSourceColumn  // "Task not found in source column"
    | TaskAlreadyExists(id: string)  // "Task with ID ... already exists"
    | TaskNotFound                // "Task not found"
    | TaskFileNotFound            // "Task file not found"

  /** `columns.find(c => c.name === name)`, as an index: the first column with that name. */
  function ColumnIndex(cols: seq<Column>, name: string): (r: Option<nat>)
    ensures r.Some? ==> r.value < |cols| && cols[r.value].name == name
    ensures r.Some? ==> forall j :: 0 <= j < r.value ==> cols[j].name != name
    ensures r.None? <==> forall j :: 0 <= j < |cols| ==> cols[j].name != name
  {
    if cols == [] then None
    else if cols[0].name == name then Some(0)
    else match ColumnIndex(cols[1..], name)
      case None => None
      case Some(k) => Some(k + 1)
  }

  /** `tasks.findIndex(t => t.id === id)`, with `None` for -1: the first task with that id. */
  function TaskIndex(tasks: seq<TaskRef>, id: string): (r: Option<nat>)
    ensures r.Some? ==> r.value < |tasks| && tasks[r.value].id == id
    ensures r.Some? ==> forall j :: 0 <= j < r.value ==> tasks[j].id != id
    ensures r.None? <==> forall j :: 0 <= j < |tasks| ==> tasks[j].id != id
  {
    if tasks == [] then None
    else if tasks[0].id == id then Some(0)
    else match TaskIndex(tasks[1..], id)
      case None => None
      case Some(k) => Some(k + 1)
  }

  /** Some task of the column has this id. */
  predicate HoldsId(c: Column, id: string) {
    exists k :: 0 <= k < |c.tasks| && c.tasks[k].id == id
  }

  /**
   * Where the loop `for (const col of board.columns) { ... col.tasks.find(t => t.id === id) ...
   * break }` stops: the first column holding the id, and the first task with the id in it.
   */
  function TaskLocation(cols: seq<Column>, id: string): (r: Option<(nat, nat)>)
    ensures r.Some? ==> r.value.0 < |cols| && TaskIndex(cols[r.value.0].tasks, id) == Some(r.value.1)
    ensures r.Some? ==> forall j :: 0 <= j < r.value.0 ==> !HoldsId(cols[j], id)
    ensures r.None? <==> forall j :: 0 <= j < |cols| ==> !HoldsId(cols[j], id)
  {
    if cols == [] then None
    else match TaskIndex(cols[0].tasks, id)
      case Some(k) =>
        assert cols[0].tasks[k].id == id;
        Some((0, k))
      case None =>
        var rest := cols[1..];
        assert forall j :: 0 <= j < |rest| ==> rest[j] == cols[j + 1];
        match TaskLocation(rest, id)
        case None => None
        case Some(loc) =>
          assert rest[loc.0] == cols[loc.0 + 1];
          Some((loc.0 + 1, loc.1))
  }

  /** The number of tasks on the board. */
  function TotalTasks(cols: seq<Column>): nat {
    if cols == [] then 0 else |cols[0].tasks| + TotalTasks(cols[1..])
  }

  /** Replacing one column's task list changes the count by the difference in length. */
  lemma {:induction false} TotalTasksUpdate(cols: seq<Column>, i: nat, c: Column)
    requires i < |cols|
    ensures TotalTasks(cols[i := c]) == TotalTasks(cols) - |cols[i].tasks| + |c.tasks|
    decreases |cols|
  {
    if i > 0 {
      assert cols[i := c][1..] == cols[1..][i - 1 := c];
      TotalTasksUpdate(cols[1..], i - 1, c);
    } else {
      assert cols[i := c][1..] == cols[1..];
    }
  }
}
