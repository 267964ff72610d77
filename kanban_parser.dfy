/**
 * The `KanbanParser` class. An instance stands for one board's `.kanbn` directory; the
 * directory's files, keyed by their path inside it, are the state its operations change.
 * Each operation loads the board from `index.md`, edits it and saves it back, and each is
 * proved to leave exactly the files the matching function of Operations describes, or to
 * change nothing and report that function's error.
 */
module KanbanParserClass {
  import opened Wrappers
  import opened Links
  import opened BoardModel
  import opened IndexFormat
  import opened BoardEdits
  import opened TaskFormat
  import opened Operations

  class KanbanParser {
    /** The files of the board's `.kanbn` directory. */
    var files: Files

    constructor(files: Files)
      ensures this.files == files
    {
      this.files := files;
    }

    /** `loadBoard`: `Board index not found` without `index.md`, else the parsed index. */
    method LoadBoard() returns (r: Result<Board, KanbanError>)
      ensures r == LoadBoardSpec(files)
    {
      if IndexPath !in files {
        return Failure(BoardIndexNotFound);
      }
      var board := ParseIndex(files[IndexPath], files);
      return Success(board);
    }

    /** `saveBoard`: `index.md` is rewritten from the board. */
    method SaveBoard(board: Board)
      modifies this
      ensures files == Saved(old(files), board)
    {
      var content := RenderIndex(board);
      files := files[IndexPath := content];
    }

    /**
     * `moveTask`: the task leaves the source column and joins the end of the target column
     * with its column set to the target's name.
     */
    method MoveTask(id: string, source: string, target: string) returns (err: Option<KanbanError>)
      modifies this
      ensures MoveTaskSpec(old(files), id, source, target) == if err.None? then Success(files) else Failure(err.value)
      ensures err.Some? ==> files == old(files)
    {
      var loaded := LoadBoard();
      if loaded.Failure? {
        return Some(loaded.error);
      }
      var board := loaded.value;
      var si := ColumnIndex(board.columns, source);
      var ti := ColumnIndex(board.columns, target);
      if si.None? || ti.None? {
        return Some(ColumnNotFound);
      }
      var k := TaskIndex(board.columns[si.value].tasks, id);
      if k.None? {
        return Some(TaskNotFoundInSourceColumn);
      }
      var task := board.columns[si.value].tasks[k.value];
      var src := board.columns[si.value];
      var cols := board.columns[si.value := src.(tasks := RemoveAt(src.tasks, k.value))];
      cols := cols[ti.value := cols[ti.value].(tasks := cols[ti.value].tasks + [task.(column := target)])];
      assert board.(columns := cols) == MoveAt(board, si.value, k.value, ti.value, target);
      SaveBoard(board.(columns := cols));
      return None;
    }

    /**
     * `createTask`: a file `tasks/<id>.md` holding the title heading, and a reference to it at
     * the end of the column; the id is the title as a slug.
     */
    method CreateTask(title: string, column: string) returns (err: Option<KanbanError>)
      modifies this
      ensures CreateTaskSpec(old(files), title, column) == if err.None? then Success(files) else Failure(err.value)
      ensures err.Some? ==> files == old(files)
    {
      var loaded := LoadBoard();
      if loaded.Failure? {
        return Some(loaded.error);
      }
      var board := loaded.value;
      var ci := ColumnIndex(board.columns, column);
      if ci.None? {
        return Some(ColumnNotFound);
      }
      var id := DeriveId(title);
      var path := TaskPath(id);
      if path in files {
        return Some(TaskAlreadyExists(id));
      }
      files := files[path := NewTaskText(title)];
      var col := board.columns[ci.value];
      board := board.(columns := board.columns[ci.value := col.(tasks := col.tasks + [TaskRef(id, title, "", column, path)])]);
      SaveBoard(board);
      return None;
    }

    /**
     * `deleteTask`: the first task with the id is looked up column by column, its file goes
     * when it is there, and every entry with the id leaves that column.
     */
    method DeleteTask(id: string) returns (err: Option<KanbanError>)
      modifies this
      ensures DeleteTaskSpec(old(files), id) == if err.None? then Success(files) else Failure(err.value)
      ensures err.Some? ==> files == old(files)
    {
      var loaded := LoadBoard();
      if loaded.Failure? {
        return Some(loaded.error);
      }
      err := DeleteFromLoaded(loaded.value, id);
    }

    /** The part of `deleteTask` after the load. */
    method DeleteFromLoaded(board: Board, id: string) returns (err: Option<KanbanError>)
      modifies this
      ensures DeleteOnBoard(old(files), board, id) == if err.None? then Success(files) else Failure(err.value)
      ensures err.Some? ==> files == old(files)
    {
      var loc := FindTask(board.columns, id);
      if loc.None? {
        return Some(TaskNotFound);
      }
      var c, k := loc.value.0, loc.value.1;
      var path := board.columns[c].tasks[k].path;
      assert Found(board, id).value.path == path;
      if path in files {
        files := files - {path};
      }
      assert files == Unlinked(old(files), path);
      var col := board.columns[c];
      SaveBoard(board.(columns := board.columns[c := col.(tasks := RemoveId(col.tasks, id))]));
      return None;
    }

    /**
     * `updateTask`: the task's file is rewritten from `data` and the metadata stamped with
     * the clock readings `updatedAt` and `createdAt`, through the YAML writer `dump`; the index
     * is saved again only when the title changes.
     */
    method UpdateTask(id: string, data: TaskBody, metadata: Metadata, updatedAt: string, createdAt: string,
                      dump: Metadata -> Option<string>) returns (err: Option<KanbanError>)
      modifies this
      ensures UpdateTaskSpec(old(files), id, data, metadata, updatedAt, createdAt, dump)
              == if err.None? then Success(files) else Failure(err.value)
      ensures err.Some? ==> files == old(files)
    {
      var loaded := LoadBoard();
      if loaded.Failure? {
        return Some(loaded.error);
      }
      var text := BuildTaskFile(data, metadata, updatedAt, createdAt, dump);
      err := UpdateLoaded(loaded.value, id, text, data.title);
    }

    /**
     * The part of `updateTask` after the load, with `text` the new content of the task's file.
     * The stamping and the rendering come after the not-found checks in the source; neither
     * touches the files, so computing `text` before them leaves the same files.
     */
    method UpdateLoaded(board: Board, id: string, text: string, title: string) returns (err: Option<KanbanError>)
      modifies this
      ensures UpdateOnBoard(old(files), board, id, text, title) == if err.None? then Success(files) else Failure(err.value)
      ensures err.Some? ==> files == old(files)
    {
      var loc := FindTask(board.columns, id);
      if loc.None? {
        return Some(TaskNotFound);
      }
      var c, k := loc.value.0, loc.value.1;
      var task := board.columns[c].tasks[k];
      if task.path !in files {
        return Some(TaskNotFound);
      }
      files := files[task.path := text];
      if title != "" && title != task.title {
        var col := board.columns[c];
        var retitled := board.(columns := board.columns[c := col.(tasks := col.tasks[k := task.(title := title)])]);
        assert retitled == RetitleAt(board, c, k, title);
        SaveBoard(retitled);
      }
      return None;
    }

    /** `getTask`: the found task's file, read with `load` as the YAML reader. */
    method GetTask(id: string, load: string -> YamlLoad) returns (r: Result<TaskDoc, KanbanError>)
      ensures r == GetTaskSpec(files, id, load)
    {
      var loaded := LoadBoard();
      if loaded.Failure? {
        return Failure(loaded.error);
      }
      r := GetFromLoaded(loaded.value, id, load);
    }

    /** The part of `getTask` after the load. */
    method GetFromLoaded(board: Board, id: string, load: string -> YamlLoad) returns (r: Result<TaskDoc, KanbanError>)
      ensures r == GetOnBoard(files, board, id, load)
    {
      var loc := FindTask(board.columns, id);
      if loc.None? {
        return Failure(TaskFileNotFound);
      }
      var path := board.columns[loc.value.0].tasks[loc.value.1].path;
      assert Found(board, id).value.path == path;
      if path !in files {
        return Failure(TaskFileNotFound);
      }
      var doc := ParseTask(files[path], load);
      return Success(doc);
    }
  }
}
