# KanbanParser in Dafny

A model of `KanbanParser`, the engine of the VS Code kanban extension that keeps a board as
markdown files. A board directory (`.kanbn`) holds:

- `index.md`, with a front-matter block (`startedColumns:` / `completedColumns:` lists), a
  `# ` title, `## ` column headings and `- [title](tasks/<id>.md)` task links, one per line;
- one file per task, with YAML front matter, a `# ` title, a description and optional
  `## Sub-tasks`, `## Relations` and `## Comments` sections.

The engine's operations are `loadBoard`, `saveBoard`, `moveTask`, `createTask`, `deleteTask`,
`getTask`, `updateTask`, and the default `index.md` that `createBoard` writes.

The model is built in layers:

- **Wrappers, Text, Links.** `Option` and `Result`, plus the JavaScript string operations the
  engine uses:
  - `trim` with JavaScript's whitespace set;
  - `split('\n')`, `startsWith` and `includes`;
  - a first-occurrence `replace`;
  - ASCII lower-casing;
  - `substring(0, n)`, counting UTF-16 code units.

  Text also holds `Scan`, the left fold of a line step over a list of lines, which each parsing
  loop is proved equal to.

  Links also holds the link pattern `- \[(.*?)\]\((.*?)\)` as an explicit lazy matcher,
  `path.basename(p, '.md')`, and the id derivation of `createTask`.
- **BoardModel.** Tasks, columns, boards and the engine's errors, together with the column and
  task lookups (`find`, `findIndex`, and the column-by-column search for an id).
- **IndexFormat.** Reading and writing `index.md`:
  - `parseIndex`, `parseFrontmatter` and the description preview, each a loop `method`
    proved equal to a left fold over the lines;
  - `saveBoard`'s text rebuild, a loop `method` proved equal to a function of the board;
  - the text `createBoard` writes.
- **IndexRoundTrip.** What parsing and printing the index promise about each other.
- **BoardEdits.** The list edits of `moveTask`, `createTask`, `deleteTask` and `updateTask` on
  a board value, with their error cases.
- **TaskFormat.** The task file formats:
  - the body parser in `getTask`, a loop over a section state machine;
  - `updateTask`'s body builder;
  - the timestamp stamping of the metadata;
  - the front-matter split.
- **TaskRoundTrip.** What reading a written task file gives back. The section-by-section lemmas
  hold for any line step that reads each kind of written line as meant (`ReadsWritten`), and
  `BodyStepReads` shows that the parser's step does.
- **Operations.** Each public operation as one load-modify-save step over the directory's
  files, modelled as a map from board-relative path to text. Lemmas relate the operations to
  each other and to the next load.
- **KanbanParserClass.** The `KanbanParser` class. Its `files` field is the directory, and its
  methods change that field. Each method is proved to leave exactly the files the matching
  Operations function gives, or to report that function's error and change nothing.

Effects outside the model are parameters:

- The YAML library is a pair of function parameters: `load` gives a mapping, a falsy value or
  an exception; `dump` gives a text, or `None` when it throws.
- The two `new Date().toISOString()` readings in `updateTask` are the string parameters
  `updatedAt` and `createdAt`.

Paths are the link strings of `index.md`, relative to the board directory. A created task's path
is `tasks/<id>.md`.

## Model

| member | source | states |
|---|---|---|
| Text.Trim | vscode-kanban/src/KanbanParser.ts:56 | the result has no JavaScript whitespace at either end, is no longer than the input, uses only the input's characters, and is empty exactly when the input is all whitespace |
| Text.SplitLines | vscode-kanban/src/KanbanParser.ts:43 | there is at least one piece, no piece contains `\n`, and joining the pieces with `\n` gives the input back |
| Text.Truncate | vscode-kanban/src/KanbanParser.ts:127 | `substring(0, n)` keeps the longest prefix whose UTF-16 length, with two code units for a character beyond the Basic Multilingual Plane, is at most `n`: the whole text when it fits, and otherwise a prefix that one more character would overflow |
| Text.SplitUnlines | vscode-kanban/src/KanbanParser.ts:43 | splitting text written as `\n`-terminated lines gives those lines plus one empty last piece |
| Links.LazyUntil | vscode-kanban/src/KanbanParser.ts:92 | a lazy `(.*?)` group stops at the first occurrence of its terminator with no line terminator before it; there is no stop exactly when every occurrence comes after a line terminator |
| Links.MatchLink | vscode-kanban/src/KanbanParser.ts:92 | a matched link's text holds no `](` and no line terminator, and its target holds no `)` and no line terminator |
| Links.MatchWrittenLink | vscode-kanban/src/KanbanParser.ts:259 | on a line that starts `- [t](g)`, with such a text and target, the pattern captures exactly `t` and `g`, whatever follows |
| Links.BaseName | vscode-kanban/src/KanbanParser.ts:99 | `path.basename(p, '.md')` holds no `/` |
| Links.BaseNameOfTaskPath | vscode-kanban/src/KanbanParser.ts:99 | the base name of `tasks/<id>.md` is `id`, for a non-empty `id` without `/` |
| Links.DeriveId | vscode-kanban/src/KanbanParser.ts:208 | every derived id is a slug: only `a-z`, `0-9` and `-`, no `--`, and no hyphen at either end |
| Links.DeriveIdOfSlug | vscode-kanban/src/KanbanParser.ts:208 | a title that is already a slug is its own id |
| Links.DeriveIdIdempotent | vscode-kanban/src/KanbanParser.ts:208 | deriving the id of an id changes nothing |
| Links.DeriveIdKeepsChars | vscode-kanban/src/KanbanParser.ts:208 | the derived id keeps every `a-z0-9` character of the lower-cased title, in order, and no other |
| Links.CollapseSep | vscode-kanban/src/KanbanParser.ts:208 | a word of `a-z0-9`, a run of other characters and then a word (or nothing): the run becomes exactly one `-` between them |
| Links.CollapseWords | vscode-kanban/src/KanbanParser.ts:208 | a text that starts with a word collapses to its maximal `a-z0-9` runs joined by `-`, with one more `-` when it ends in other characters |
| Links.CollapseFramed | vscode-kanban/src/KanbanParser.ts:208 | any text collapses to its words joined by `-`, with one `-` in front for a leading run and one behind for a trailing run |
| Links.StripFramed | vscode-kanban/src/KanbanParser.ts:208 | the edge-hyphen trim removes exactly those framing hyphens and nothing of the joined words |
| Links.DeriveIdWords | vscode-kanban/src/KanbanParser.ts:208 | the id is exactly the maximal `a-z0-9` runs of the lower-cased title joined by single hyphens |
| Links.DeriveIdMyNewTask | vscode-kanban/src/KanbanParser.ts:206-208 | the title `My New Task` gives the id `my-new-task` |
| BoardModel.ColumnIndex | vscode-kanban/src/KanbanParser.ts:180-181 | the index of the first column with the name; `None` exactly when no column has the name |
| BoardModel.TaskIndex | vscode-kanban/src/KanbanParser.ts:186 | the index of the first task with the id; `None` exactly when no task has it |
| BoardModel.TaskLocation | vscode-kanban/src/KanbanParser.ts:345-351 | gives the first column holding the id, where no earlier column holds it, and the first task with the id in that column; `None` exactly when no column holds it |
| BoardEdits.FindTask | vscode-kanban/src/KanbanParser.ts:473-478 | the loop over the columns with its `break` returns that location |
| IndexFormat.Unquote | vscode-kanban/src/KanbanParser.ts:165-167 | the value is returned whole or with its first and last characters removed, and holds only characters of the value; UnquoteQuoted, UnquoteDoubleQuoted and UnquotePlain say which case applies |
| IndexFormat.UnquoteQuoted | vscode-kanban/src/KanbanParser.ts:165-167 | a value in single quotes loses exactly those quotes |
| IndexFormat.UnquoteDoubleQuoted | vscode-kanban/src/KanbanParser.ts:165-167 | a value in double quotes loses exactly those quotes |
| IndexFormat.UnquotePlain | vscode-kanban/src/KanbanParser.ts:165-167 | a value that is empty or does not open with a quote is kept whole |
| IndexFormat.ItemBeforeKey | vscode-kanban/src/KanbanParser.ts:162 | an item line `- …` read before any key line is dropped and the state is unchanged |
| IndexFormat.ItemsBeforeKey | vscode-kanban/src/KanbanParser.ts:156-170 | any number of item lines before the first key line leave the board and the state unchanged |
| IndexFormat.ScanFrontmatter | vscode-kanban/src/KanbanParser.ts:156-170 | reading front-matter lines leaves the title and the columns unchanged; each list only grows at its end; ItemsBeforeKey says that items before any key line are dropped |
| IndexFormat.ParseFrontmatter | vscode-kanban/src/KanbanParser.ts:148-171 | the loop gives the board that the fold of the line step gives |
| IndexFormat.StripFrontmatter | vscode-kanban/src/KanbanParser.ts:108-109 | the body is always a suffix of the text; it is the whole text when the text does not open with `---\n` or has no `\n---\n` from index 4 on, and otherwise what follows the first such `\n---\n` |
| IndexFormat.PreviewLines | vscode-kanban/src/KanbanParser.ts:111-126 | the lines collected so far are kept as a prefix, and every collected line is trimmed and non-empty |
| IndexFormat.PreviewText | vscode-kanban/src/KanbanParser.ts:108-128 | the preview is at most 100 UTF-16 code units, a prefix of the collected description lines joined with single spaces, and the whole join when that fits |
| IndexFormat.PreviewOf | vscode-kanban/src/KanbanParser.ts:103-132 | a task whose file does not exist gets the empty preview, and every preview is at most 100 UTF-16 code units |
| IndexFormat.Preview | vscode-kanban/src/KanbanParser.ts:108-128 | the preview loop with its `break` gives that preview |
| IndexFormat.ReadPreview | vscode-kanban/src/KanbanParser.ts:103-132 | the file lookup and the preview loop together give that preview |
| IndexFormat.ScanIndexLine | vscode-kanban/src/KanbanParser.ts:56-142 | one pass of the loop body updates the board, the front-matter flag and the collected front matter as the line step does |
| IndexFormat.ReadBodyLine | vscode-kanban/src/KanbanParser.ts:73-141 | outside the front matter the trimmed line is tried as a title, then as a column heading, then as a task link under a column, and each branch leaves the board the line step gives; any other line leaves it as it was |
| IndexFormat.AddLinkedTask | vscode-kanban/src/KanbanParser.ts:91-141 | when the link pattern matches, a task is pushed onto the last column: id the base name of the target, title the link text, the preview of its file, that column's name and the target as path. Without a match the board is unchanged |
| IndexFormat.ParseIndexSpec | vscode-kanban/src/KanbanParser.ts:42-146 | `parseIndex` as the fold of the line step over the lines of `index.md`, from the empty `Kanban Board`; what it gives is stated by the IndexRoundTrip lemmas |
| IndexFormat.IndexText | vscode-kanban/src/KanbanParser.ts:238-263 | the text `saveBoard` writes: the fenced lists, the `# ` title, and per column its heading and one link line per task; `ParseIndexText` states that parsing it gives the board back |
| IndexFormat.ParseIndex | vscode-kanban/src/KanbanParser.ts:42-146 | the loop over the lines gives the board that the fold of the line step gives from the empty `Kanban Board` |
| IndexFormat.RenderIndex | vscode-kanban/src/KanbanParser.ts:238-263 | the text built by concatenation is the board's index text, line for line |
| IndexFormat.AppendQuoted | vscode-kanban/src/KanbanParser.ts:242 | the `forEach` appends one `  - '<v>'` line per value, in order |
| IndexFormat.AppendList | vscode-kanban/src/KanbanParser.ts:240-247 | a list is written as its header line and its quoted values only when it has values; an empty list adds nothing |
| IndexFormat.RenderHead | vscode-kanban/src/KanbanParser.ts:239-250 | the text starts with the fenced front matter holding both lists, a blank line, the `# ` title and another blank line |
| IndexFormat.AppendColumn | vscode-kanban/src/KanbanParser.ts:252-261 | a column is written as its `## ` heading, a blank line, one link line per task in order, and a closing blank line |
| IndexRoundTrip.OpenStep | vscode-kanban/src/KanbanParser.ts:59-66 | a `---` line outside the front matter opens it and changes nothing else |
| IndexRoundTrip.CloseStep | vscode-kanban/src/KanbanParser.ts:59-62 | a `---` line inside the front matter closes it and passes the collected text to `parseFrontmatter` |
| IndexRoundTrip.CollectStep | vscode-kanban/src/KanbanParser.ts:68-71 | inside the front matter a line is collected with a line break and nothing else changes |
| IndexRoundTrip.TitleStep | vscode-kanban/src/KanbanParser.ts:74-77 | a `# t` line outside the front matter overwrites the title with `t` |
| IndexRoundTrip.HeadingStep | vscode-kanban/src/KanbanParser.ts:80-87 | a `## n` line appends an empty column named `n`, so columns come in heading order |
| IndexRoundTrip.TaskStep | vscode-kanban/src/KanbanParser.ts:91-141 | under a heading, a task's link line appends a task to the last column. The task has the title, the path, `column` set to that heading's name, id equal to the base name, and a preview from its file |
| IndexRoundTrip.ParseWrittenLists | vscode-kanban/src/KanbanParser.ts:240-248 | `parseFrontmatter` on the lists `saveBoard` writes appends exactly the started and the completed lists, in order |
| IndexRoundTrip.ParseIndexText | vscode-kanban/src/KanbanParser.ts:238-265 | parsing a saved board gives back the board with every task's id, column and preview recomputed. This covers the title, the lists, the column names and order, and per column the task titles, paths and order. It holds for boards whose strings are trimmed and single-line, whose task titles hold no `](` and whose paths hold no `)` |
| IndexRoundTrip.ParsedPrintable | vscode-kanban/src/KanbanParser.ts:42-146 | every parsed board meets those conditions, and its ids, columns and previews are already the recomputed ones |
| IndexRoundTrip.ReloadIsFixpoint | vscode-kanban/src/KanbanParser.ts:42-146 | saving a loaded board and loading it again gives the same board |
| IndexRoundTrip.ResaveIsFixpoint | vscode-kanban/src/KanbanParser.ts:238-265 | saving, loading and saving again writes the same text |
| IndexRoundTrip.ParseDefaultIndex | vscode-kanban/src/KanbanParser.ts:308-323 | the default index parses to a title that is the board name without trailing white space (the default `Kanban Board` for a blank name), to empty columns Backlog, In Progress and Done, `startedColumns = ['In Progress']` and `completedColumns = ['Done']`; the nested `settings:` keys are found because lines are trimmed |
| BoardEdits.RemoveAt | vscode-kanban/src/KanbanParser.ts:192 | `splice(k, 1)` keeps the elements before `k` in place, shifts those after it down by one, and removes exactly that one element from the multiset |
| BoardEdits.MoveAt | vscode-kanban/src/KanbanParser.ts:191-194 | the task leaves its column and is appended to the target with `column` set; the title, the lists, the column names and every other column stay, the task count is kept, and when source and target are one column the append sees the shortened list |
| BoardEdits.MoveInBoard | vscode-kanban/src/KanbanParser.ts:179-194 | `moveTask` on the loaded board: the two errors, then `MoveAt` at the first source column, the first task with the id and the first target column; `MoveErrors` and `MoveSucceeds` state it |
| BoardEdits.MoveErrors | vscode-kanban/src/KanbanParser.ts:180-189 | `Column not found` exactly when either column is missing; `Task not found in source column` exactly when both exist and the source column lacks the id |
| BoardEdits.MoveSucceeds | vscode-kanban/src/KanbanParser.ts:179-196 | a successful move is `MoveAt` at the first source column, the first task with the id and the first target column: the title and both lists stay, the task count and every other column are kept, and the task, with `column` set to the target, ends up last in the target column, also when source and target are the same column |
| BoardEdits.CreateInBoard | vscode-kanban/src/KanbanParser.ts:199-233 | `Column not found` exactly when the column is missing; `Task with ID … already exists` exactly when the column exists and `tasks/<id>.md` does |
| BoardEdits.CreateSucceeds | vscode-kanban/src/KanbanParser.ts:228-233 | the new task, with a slug id and the path `tasks/<id>.md`, is appended to the first column with the name. No other column changes, the title and both lists stay, and the board holds one task more |
| BoardEdits.RemoveId | vscode-kanban/src/KanbanParser.ts:575 | the filter keeps exactly the tasks without the id and never lengthens the list |
| BoardEdits.RemoveIdAppend | vscode-kanban/src/KanbanParser.ts:575 | the filter keeps the remaining tasks in their order |
| BoardEdits.DeleteInBoard | vscode-kanban/src/KanbanParser.ts:565-567 | `Task not found` exactly when no column holds the id |
| BoardEdits.DeleteSucceeds | vscode-kanban/src/KanbanParser.ts:556-575 | the first column holding the id keeps its name and its tasks become exactly the filtered list: no entry with the id, the other tasks in order. The title, both lists and every other column are unchanged and the board shrinks |
| BoardEdits.RetitleOnly | vscode-kanban/src/KanbanParser.ts:544-547 | retitling changes that one task's title and nothing else on the board |
| TaskFormat.SplitTaskFrontmatter | vscode-kanban/out/KanbanParser.js:328 | `^---\n(…?)\n---\n(…)$` splits the text around the first `\n---\n` after the opening fence, and fails exactly when there is no opening fence or no closing one |
| TaskFormat.ReadFrontmatter | vscode-kanban/out/KanbanParser.js:328-339 | each outcome: with no match, or when the YAML reader throws, `{}` and the whole text; with a falsy load, `{}` and the text after the fence; with a loaded map, that map and the text after the fence; the body is always a suffix of the text |
| TaskFormat.SectionOf | vscode-kanban/out/KanbanParser.js:359-374 | a `## ` heading never leads back to the header or the description |
| TaskFormat.Flush | vscode-kanban/out/KanbanParser.js:398-400 | the open comment is appended, or nothing is |
| TaskFormat.ScanBodyLine | vscode-kanban/out/KanbanParser.js:351-409 | one pass of the loop body moves the state as the line step does |
| TaskFormat.ParseBodySpec | vscode-kanban/out/KanbanParser.js:340-415 | the body parse as the fold of the line step over the lines, then the final flush and the description join and trim; `ParseWrittenBody` and `ParsedShape` state what it gives |
| TaskFormat.BodyText | vscode-kanban/out/KanbanParser.js:443-475 | the body `updateTask` builds, as the lines it writes: the title, the description's lines, then the Sub-tasks, Relations and Comments sections when non-empty; `ParseWrittenBody` states that parsing it gives the body back |
| TaskFormat.ParseTaskBody | vscode-kanban/out/KanbanParser.js:340-415 | the loop over the body lines, the final flush and the description join give the fold's result |
| TaskFormat.ParseTask | vscode-kanban/out/KanbanParser.js:326-423 | reading a task file gives the front-matter metadata and the parsed body |
| TaskFormat.BuildBody | vscode-kanban/out/KanbanParser.js:443-475 | the concatenation loops build the body text: title, the non-empty description, then the non-empty Sub-tasks, Relations and Comments sections in that order |
| TaskFormat.AppendDescription | vscode-kanban/out/KanbanParser.js:447-449 | a non-empty description adds its text, which may span several lines, and a blank line; an empty one adds nothing |
| TaskFormat.AppendSubTasks | vscode-kanban/out/KanbanParser.js:453-456 | the loop adds one `- [x] d` or `- [ ] d` line per sub-task, in order |
| TaskFormat.AppendSubTasksBlock | vscode-kanban/out/KanbanParser.js:451-458 | with sub-tasks, the `## Sub-tasks` heading, a blank line, their lines and a closing blank line; without, nothing |
| TaskFormat.AppendRelations | vscode-kanban/out/KanbanParser.js:462-464 | the loop adds one `- [name](target.md)` line per relation, in order |
| TaskFormat.AppendRelationsBlock | vscode-kanban/out/KanbanParser.js:460-466 | with relations, the `## Relations` heading, a blank line, their lines and a closing blank line; without, nothing |
| TaskFormat.AppendComments | vscode-kanban/out/KanbanParser.js:470-474 | the loop adds four lines per comment: the author line, the indented date and text lines, and a blank line |
| TaskFormat.AppendCommentsBlock | vscode-kanban/out/KanbanParser.js:468-475 | with comments, the `## Comments` heading, a blank line and their lines, with no closing line of its own; without, nothing |
| TaskFormat.Stamp | vscode-kanban/out/KanbanParser.js:438-441 | `updated` is always the clock reading; `created` is kept when set and non-empty and is the clock reading otherwise; no other key changes and no key is lost |
| TaskFormat.FileText | vscode-kanban/out/KanbanParser.js:477-485 | when `dump` gives YAML, the file is `---\n`, that YAML, `---\n` and the body; when it throws, the bare body; in both cases it ends with the body |
| TaskFormat.BuildTaskFile | vscode-kanban/out/KanbanParser.js:437-485 | the file `updateTask` writes is the stamped metadata's front matter followed by the built body |
| TaskRoundTrip.TitleStep | vscode-kanban/out/KanbanParser.js:353-357 | the first `# ` line sets the title and enters the description |
| TaskRoundTrip.HeadingStep | vscode-kanban/out/KanbanParser.js:359-374 | any `## ` line only selects the section its name names |
| TaskRoundTrip.DescriptionStep | vscode-kanban/out/KanbanParser.js:376-378 | a non-blank line in the description is collected as it is |
| TaskRoundTrip.DescriptionLinesScan | vscode-kanban/out/KanbanParser.js:376-378 | in the description, non-blank lines that open no section are collected one after the other, as they are |
| TaskRoundTrip.SubTaskOfLine | vscode-kanban/out/KanbanParser.js:379-385 | a written sub-task line reads back as the same description and `completed` flag |
| TaskRoundTrip.RelationOfLine | vscode-kanban/out/KanbanParser.js:386-394 | a written relation line matches the link pattern and reads back as the same name and target |
| TaskRoundTrip.CommentScan | vscode-kanban/out/KanbanParser.js:395-409 | the four lines of a written comment close the open comment and open this one with its author, date and text |
| TaskRoundTrip.SubTasksScan | vscode-kanban/out/KanbanParser.js:451-458 | a written Sub-tasks section reads back as exactly its sub-tasks, in order |
| TaskRoundTrip.BodyStepReads | vscode-kanban/out/KanbanParser.js:351-409 | the parser's line step reads every kind of line the writer emits as it was meant: blank lines change nothing, the title line sets the title, headings select their sections, and description, sub-task, relation and comment lines are collected |
| TaskRoundTrip.BodyLinesScan | vscode-kanban/out/KanbanParser.js:443-475 | any line step with those readings, run over the lines written for a body that the format can carry, and finished with the flush and the description join, gives the body back |
| TaskRoundTrip.ScanShaped | vscode-kanban/out/KanbanParser.js:350-409 | over any lines without a line feed, the line step keeps the title and every field of the collected sub-tasks, relations and comments trimmed, every sub-task description and stored comment author non-empty, and every collected description line non-blank |
| TaskRoundTrip.JoinedLines | vscode-kanban/out/KanbanParser.js:415 | non-blank lines joined with `\n` and trimmed give a text none of whose lines is blank |
| TaskRoundTrip.ParsedShape | vscode-kanban/out/KanbanParser.js:350-415 | every parsed title, description, sub-task, relation and comment field is trimmed; a non-empty description has no blank line; sub-task descriptions and comment authors are never empty |
| TaskRoundTrip.ParseWrittenBody | vscode-kanban/out/KanbanParser.js:443-475 | parsing a built body gives back the title, description, sub-tasks, relations and comments, for bodies the format can carry, descriptions of several lines included |
| TaskRoundTrip.RewriteIsFixpoint | vscode-kanban/out/KanbanParser.js:443-475 | building, parsing and building again gives the same text |
| TaskRoundTrip.SplitWritten | vscode-kanban/out/KanbanParser.js:480 | the front-matter pattern splits a written file back into the dumped YAML and the body when the YAML holds no fence line |
| TaskRoundTrip.ReadWrittenTask | vscode-kanban/out/KanbanParser.js:328-339 | reading a written task file gives the metadata the YAML reader makes of the dump, and the body that was written |
| Operations.LoadBoardSpec | vscode-kanban/src/KanbanParser.ts:32-40 | `Board index not found` exactly when `index.md` is missing, else the parsed index |
| Operations.Found | vscode-kanban/src/KanbanParser.ts:345-351 | a task is found exactly when some column holds the id, and the found task has that id |
| Operations.Unlinked | vscode-kanban/src/KanbanParser.ts:570-572 | the file is gone and every other file is as it was |
| Operations.ParseIndexSame | vscode-kanban/src/KanbanParser.ts:100-132 | task files only feed previews: the same `index.md` lists the same tasks whatever the task files hold |
| Operations.RefreshListed | vscode-kanban/src/KanbanParser.ts:134-140 | recomputing ids, columns and previews keeps a board's listing when each id is its path's base name and each column is its heading |
| Operations.LoadedSaveable | vscode-kanban/src/KanbanParser.ts:42-146 | a loaded board can be saved and read back: its strings meet the printing conditions and its ids and columns agree with its paths and headings |
| Operations.SaveThenLoad | vscode-kanban/src/KanbanParser.ts:238-265 | `loadBoard` after `saveBoard` gives back the saved board, previews aside |
| Operations.MoveTaskSpec | vscode-kanban/src/KanbanParser.ts:173-197 | `moveTask` as the load, the move on the loaded board and the save; `MoveTaskErrors` and `MoveTaskPersists` state its errors and its effect |
| Operations.MoveTaskErrors | vscode-kanban/src/KanbanParser.ts:173-189 | `Board index not found`, `Column not found` and `Task not found in source column` each come exactly in their case |
| Operations.MoveTaskPersists | vscode-kanban/src/KanbanParser.ts:191-196 | only `index.md` changes. The next load gives the moved board with the same task count and the task last in the target column |
| Operations.CreateTaskSpec | vscode-kanban/src/KanbanParser.ts:199-236 | `createTask` as the load, the checks, the new task file and the save; `CreateTaskErrors`, `CreateTaskWrites` and `CreateThenLoad` state it |
| Operations.CreateTaskErrors | vscode-kanban/src/KanbanParser.ts:199-221 | `Board index not found`, `Column not found` and `already exists` each come exactly in their case |
| Operations.CreateTaskWrites | vscode-kanban/src/KanbanParser.ts:218-226 | `tasks/<id>.md` did not exist and now holds `# <title>` and a blank line. Apart from it and `index.md`, no file changes |
| Operations.CreateThenLoad | vscode-kanban/src/KanbanParser.ts:228-235 | the next load gives the board with the new task last in its column and one task more |
| Operations.CreatedLocation | vscode-kanban/src/KanbanParser.ts:228-233 | when no column listed the new id before, the column-by-column search finds the new task at the end of its column |
| Operations.TaskPathReadsBack | vscode-kanban/src/KanbanParser.ts:208-216 | the path `tasks/<id>.md` of a non-empty slug id is a link target the pattern reads back whole, and its base name is the id |
| Operations.NewTaskReads | vscode-kanban/src/KanbanParser.ts:224 | a new task file reads as the title with no metadata, no description and empty lists |
| Operations.CreateThenGet | vscode-kanban/src/KanbanParser.ts:199-236 | `getTask` on a new id after `createTask` returns the fresh task document |
| Operations.DeleteTaskSpec | vscode-kanban/src/KanbanParser.ts:550-579 | `deleteTask` as the load followed by the delete on the loaded board |
| Operations.DeleteOnBoard | vscode-kanban/src/KanbanParser.ts:556-578 | after the load: `Task not found`, or the found task's file removed when present and the filtered board saved; `DeleteTaskErrors` and `DeleteTaskPersists` state it |
| Operations.DeleteTaskErrors | vscode-kanban/src/KanbanParser.ts:550-567 | `Board index not found`, and `Task not found` exactly when no column holds the id |
| Operations.DeleteTaskPersists | vscode-kanban/src/KanbanParser.ts:569-578 | only `index.md` and the task's file change, and the file is gone. The next load gives the board without the task, with fewer tasks |
| Operations.DeleteThenGet | vscode-kanban/src/KanbanParser.ts:550-579 | when one column held the id, `getTask` afterwards fails with `Task file not found` |
| Operations.DeleteClears | vscode-kanban/src/KanbanParser.ts:556-575 | when only one column held the id, no column holds it after the delete |
| Operations.UpdateTaskSpec | vscode-kanban/out/KanbanParser.js:425-493 | `updateTask` as the load, the stamping, the body and file text built from `data`, and the update on the loaded board |
| Operations.UpdateOnBoard | vscode-kanban/out/KanbanParser.js:428-492 | after the load: `Task not found` when the id is not listed or its file is missing; otherwise the file is written and `index.md` is saved only when the title changes; `UpdateTaskErrors` and `UpdateTaskWrites` state it |
| Operations.UpdateTaskErrors | vscode-kanban/out/KanbanParser.js:434-436 | `Board index not found`, and `Task not found` exactly when the id is not listed or its file is missing |
| Operations.UpdateTaskWrites | vscode-kanban/out/KanbanParser.js:437-492 | the task's file gets the stamped and built text; without a title change `index.md` is untouched; no other file changes |
| Operations.UpdateThenLoad | vscode-kanban/out/KanbanParser.js:489-492 | the next load lists the task retitled when the new title is non-empty and differs, and the board as before otherwise |
| Operations.UpdateThenGet | vscode-kanban/out/KanbanParser.js:425-493 | `getTask` after `updateTask` returns the body that was written and the metadata the YAML reader makes of the stamped dump |
| Operations.GetTaskSpec | vscode-kanban/out/KanbanParser.js:313-424 | `getTask` as the load followed by the read on the loaded board |
| Operations.GetOnBoard | vscode-kanban/out/KanbanParser.js:316-339 | after the load: `Task file not found` when the id is not listed or its file is missing, otherwise the task file read; `GetTaskErrors` and `UpdateThenGet` state it |
| Operations.GetTaskErrors | vscode-kanban/out/KanbanParser.js:313-325 | `Board index not found`, and `Task file not found` exactly when the id is not listed or its file is missing |
| Operations.NewBoardLoads | vscode-kanban/src/KanbanParser.ts:308-326 | a freshly created board loads with title `DefaultBoardTitle(name)` (the name without trailing white space, or `Kanban Board` for a blank name), the three empty columns `Backlog`, `In Progress` and `Done`, `In Progress` as started and `Done` as completed |
| KanbanParserClass.KanbanParser.LoadBoard | vscode-kanban/src/KanbanParser.ts:32-40 | returns the load of the current files |
| KanbanParserClass.KanbanParser.SaveBoard | vscode-kanban/src/KanbanParser.ts:238-265 | `index.md` becomes the board's text and no other file changes |
| KanbanParserClass.KanbanParser.MoveTask | vscode-kanban/src/KanbanParser.ts:173-197 | the in-place splice and push leave the files `moveTask` specifies; on an error the files are unchanged |
| KanbanParserClass.KanbanParser.CreateTask | vscode-kanban/src/KanbanParser.ts:199-236 | the new file and the appended reference leave the files `createTask` specifies; on an error the files are unchanged |
| KanbanParserClass.KanbanParser.DeleteTask | vscode-kanban/src/KanbanParser.ts:550-579 | the unlink and the reassigned filtered column leave the files `deleteTask` specifies; on an error the files are unchanged |
| KanbanParserClass.KanbanParser.DeleteFromLoaded | vscode-kanban/src/KanbanParser.ts:555-578 | after the load: the search, the unlink when the file exists and the filtered column leave the files that delete on that board specifies |
| KanbanParserClass.KanbanParser.UpdateTask | vscode-kanban/out/KanbanParser.js:425-493 | the file write and the conditional index save leave the files `updateTask` specifies; on an error the files are unchanged |
| KanbanParserClass.KanbanParser.UpdateLoaded | vscode-kanban/out/KanbanParser.js:428-492 | after the load: the search, the not-found checks, the file write and the conditional save leave the files that update on that board specifies |
| KanbanParserClass.KanbanParser.GetTask | vscode-kanban/out/KanbanParser.js:313-424 | returns what `getTask` specifies for the current files |
| KanbanParserClass.KanbanParser.GetFromLoaded | vscode-kanban/out/KanbanParser.js:316-339 | after the load: the search, the not-found check and the read give what get on that board specifies |

## Left out

- File system calls are modelled as lookups, updates and removals on the `files` map. Directory creation, `existsSync` on directories and I/O errors are not modelled.
- `path.join`, `path.relative` and `path.basename` normalisation is not modelled. A task's path is its board-relative link string, kept verbatim, so a link like `./tasks/a.md` is not rewritten to `tasks/a.md` on save. The `\` to `/` replacement `saveBoard` applies to the relative path (KanbanParser.ts:257) is not modelled either: a `\` in a link target is written back verbatim. A task path is never empty in the source: `path.join` with the board directory always gives a path. An empty link target, naming the directory itself, is not modelled.
- js-yaml `load` and `dump` are parameters. Metadata is a map from string keys to string values: non-string YAML values are not modelled, and `created` counts as set exactly when it is a non-empty string.
- `new Date().toISOString()` is the two parameters `updatedAt` and `createdAt`.
- Links.DeriveId: lower-casing, here and for section names, is ASCII only; the full Unicode `toLowerCase` is not modelled. So a title letter that JavaScript lowers into `a-z` is a separator in the model: the Kelvin sign U+212A becomes `k` in JavaScript but a hyphen run here.
- `updateTask` stamps `data.metadata` in place, so the caller's object changes. The model computes the stamped metadata as a value and leaves the caller's copy out.
- The `data` lists in `updateTask` may be missing in the source (`data.subTasks &&`); the model's lists are always present, and a missing list behaves as an empty one.
- `console.error` logging when YAML parsing or dumping throws is left out; only the fallback the source then takes is modelled.
- `async`/`await` is treated as one sequential load-modify-save per call, with no interleaving.
- The static `findFirstBoard`, `listBoards` and `deleteBoard` only list or remove directories, and are left out. For `createBoard`, only the `index.md` it writes is modelled (`Operations.NewBoardFiles`); its directory creation and its `Board "…" already exists` error are left out.
- The constructor's `boardPath` is not modelled: the class's `files` field stands for the contents of that directory.
- The thrown `Error` objects are the KanbanError variants, one per message; the message texts, such as the index path in `Board index not found at …`, are not modelled.
- Operations.UpdateThenLoad: stated only when the task's file is not `index.md` itself. A task linking to `index.md` would have the index overwritten by the task file; the lemma does not describe that case.
- Operations.UpdateThenGet: stated under the same restriction. It also needs a title the link keeps and a body the format can carry: trimmed single-line fields, a trimmed description without blank lines or lines opening a section, and no section markers inside fields.
- Operations.DeleteThenGet: stated when only one column holds the id. `deleteTask` clears the id from the first such column only, so a later column may still list it.
- Operations.CreateThenLoad: stated for titles the link keeps (no line break, no `](`) whose id is non-empty. A title that derives the empty id makes the file `tasks/.md`, whose base name is `.md` and not the empty id.
- TaskRoundTrip.ParseWrittenBody: the description must be trimmed and have no blank line and no line starting `## `. The parser drops blank lines before the `\n` join and ends the description at a `## ` line, so other descriptions do not read back.
- Text.Truncate: the cut counts UTF-16 code units as `substring` does, but never splits a character. When the last code unit that fits is the first half of a surrogate pair, JavaScript keeps that lone high surrogate; the model drops the whole character, since a Dafny string cannot hold a lone surrogate.
- IndexFormat.PreviewText: cut with Text.Truncate, so a preview ending in half a surrogate pair is one code unit shorter than in the source.
- IndexFormat.PreviewOf: the same lone-surrogate difference, through IndexFormat.PreviewText.
- IndexFormat.Preview: the same lone-surrogate difference, through Text.Truncate.
- IndexFormat.ReadPreview: the same lone-surrogate difference, through IndexFormat.Preview.
