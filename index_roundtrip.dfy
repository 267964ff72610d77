/**
 * What `parseIndex` reads back from the text `saveBoard` writes: the board itself, with each task's
 * id, description and column refreshed from its link, its file and its heading.
 */
module IndexRoundTrip {
  import opened Wrappers
  import opened Text
  import opened Links
  import opened BoardModel
  import opened IndexFormat

  // ---------------------------------------------------------------------------------------
  // The two scans split at any line

  lemma {:induction false} ScanIndexAppend(st: IndexScan, a: seq<string>, b: seq<string>, files: Files)
    ensures ScanIndex(st, a + b, files) == ScanIndex(ScanIndex(st, a, files), b, files)
  {
    ScanAppend(IndexStepper(files), st, a, b);
  }

  lemma {:induction false} ScanFrontmatterAppend(st: FrontmatterScan, a: seq<string>, b: seq<string>)
    ensures ScanFrontmatter(st, a + b) == ScanFrontmatter(ScanFrontmatter(st, a), b)
  {
    ScanAppend(FrontmatterStep, st, a, b);
  }

  lemma {:induction false} ScanIndexOne(st: IndexScan, l: string, files: Files)
    ensures ScanIndex(st, [l], files) == IndexStep(st, l, files)
  {
    ScanOne(IndexStepper(files), st, l);
  }

  lemma {:induction false} ScanFrontmatterOne(st: FrontmatterScan, l: string)
    ensures ScanFrontmatter(st, [l]) == FrontmatterStep(st, l)
  {
    ScanOne(FrontmatterStep, st, l);
  }

  // ---------------------------------------------------------------------------------------
  // The front matter

  /** Strings without a line break: list values `saveBoard` can quote, lines `split` can give back. */
  predicate NoBreaks(vs: seq<string>) {
    forall i :: 0 <= i < |vs| ==> '\n' !in vs[i]
  }

  /** The values pushed onto the list the current key selects. */
  function PushValues(st: FrontmatterScan, vs: seq<string>): FrontmatterScan {
    if st.key == Started then st.(board := st.board.(startedColumns := st.board.startedColumns + vs))
    else if st.key == Completed then st.(board := st.board.(completedColumns := st.board.completedColumns + vs))
    else st
  }

  lemma {:induction false} PushValuesAppend(st: FrontmatterScan, a: seq<string>, b: seq<string>)
    ensures PushValues(PushValues(st, a), b) == PushValues(st, a + b)
  {
    assert st.board.startedColumns + a + b == st.board.startedColumns + (a + b);
    assert st.board.completedColumns + a + b == st.board.completedColumns + (a + b);
  }

  /** An item line `  - '<v>'` pushes `v` onto the list of the current key. */
  /** A line that trims to `-…` under a key pushes the unquoted rest onto that key's list. */
  lemma {:induction false} DashLine(st: FrontmatterScan, line: string, t: string)
    requires st.key != NoKey && Trim(line) == t && |t| > 0 && t[0] == '-'
    ensures FrontmatterStep(st, line) == PushValues(st, [Unquote(Trim(t[1..]))])
  {
    assert t[..1] == "-";
    assert !StartsWith(t, "startedColumns:") by { assert |t| < 15 || t[..15][0] == '-'; }
    assert !StartsWith(t, "completedColumns:") by { assert |t| < 17 || t[..17][0] == '-'; }
  }

  lemma {:induction false} QuotedLineSplit(v: string)
    ensures "  - '" + v + "'" == "  " + ("- " + ("'" + v + "'"))
  {
    assert "  - '" == "  " + "- " + "'";
  }

  lemma {:induction false} QuotedStep(st: FrontmatterScan, v: string)
    requires st.key != NoKey
    ensures FrontmatterStep(st, "  - '" + v + "'") == PushValues(st, [v])
  {
    var q := "'" + v + "'";
    var t := "- " + q;
    QuotedLineSplit(v);
    assert t[0] == '-';
    TrimIndented("  ", t);
    DashLine(st, "  " + t, t);
    assert t[1..] == " " + q;
    TrimIndented(" ", q);
    UnquoteQuoted(v);
  }

  lemma {:induction false} ScanQuoted(st: FrontmatterScan, vs: seq<string>)
    requires st.key != NoKey
    ensures ScanFrontmatter(st, QuotedLines(vs)) == PushValues(st, vs)
    decreases |vs|
  {
    if vs == [] {
      assert QuotedLines(vs) == [];
      assert st.board.startedColumns + vs == st.board.startedColumns;
      assert st.board.completedColumns + vs == st.board.completedColumns;
      assert PushValues(st, vs) == st;
    } else {
      var init, v := vs[..|vs| - 1], vs[|vs| - 1];
      assert init + [v] == vs;
      var line := "  - '" + v + "'";
      assert QuotedLines(vs) == QuotedLines(init) + [line];
      ScanFrontmatterAppend(st, QuotedLines(init), [line]);
      ScanQuoted(st, init);
      var mid := PushValues(st, init);
      ScanFrontmatterOne(mid, line);
      QuotedStep(mid, v);
      PushValuesAppend(st, init, [v]);
      calc {
        ScanFrontmatter(st, QuotedLines(vs));
        ScanFrontmatter(ScanFrontmatter(st, QuotedLines(init)), [line]);
        ScanFrontmatter(mid, [line]);
        FrontmatterStep(mid, line);
        PushValues(mid, [v]);
        PushValues(st, vs);
      }
    }
  }

  lemma {:induction false} ScanStartedList(st: FrontmatterScan, vs: seq<string>)
    ensures ScanFrontmatter(st, ListLines("startedColumns:", vs)).board
            == st.board.(startedColumns := st.board.startedColumns + vs)
    ensures vs != [] ==> ScanFrontmatter(st, ListLines("startedColumns:", vs)).key == Started
    ensures vs == [] ==> ScanFrontmatter(st, ListLines("startedColumns:", vs)) == st
  {
    if vs != [] {
      var h := "startedColumns:";
      TrimOfTrimmed(h);
      assert StartsWith(h, h);
      ScanFrontmatterAppend(st, [h], QuotedLines(vs));
      ScanFrontmatterOne(st, h);
      ScanQuoted(st.(key := Started), vs);
      assert PushValues(st.(key := Started), vs).board == st.board.(startedColumns := st.board.startedColumns + vs);
    } else {
      assert st.board.startedColumns + vs == st.board.startedColumns;
    }
  }

  lemma {:induction false} ScanCompletedList(st: FrontmatterScan, vs: seq<string>)
    ensures ScanFrontmatter(st, ListLines("completedColumns:", vs)).board
            == st.board.(completedColumns := st.board.completedColumns + vs)
    ensures vs == [] ==> ScanFrontmatter(st, ListLines("completedColumns:", vs)) == st
  {
    if vs != [] {
      var h := "completedColumns:";
      TrimOfTrimmed(h);
      assert StartsWith(h, h);
      assert !StartsWith(h, "startedColumns:") by { assert h[..15][0] == 'c'; }
      ScanFrontmatterAppend(st, [h], QuotedLines(vs));
      ScanFrontmatterOne(st, h);
      ScanQuoted(st.(key := Completed), vs);
      assert PushValues(st.(key := Completed), vs).board == st.board.(completedColumns := st.board.completedColumns + vs);
    } else {
      assert st.board.completedColumns + vs == st.board.completedColumns;
    }
  }

  /** The lines `saveBoard` writes between the two `---` lines. */
  function ListsLines(b: Board): seq<string> {
    ListLines("startedColumns:", b.startedColumns) + ListLines("completedColumns:", b.completedColumns)
  }

  /** A line `saveBoard` writes holds no line break and does not trim to `---`. */
  predicate SingleLine(l: string) {
    '\n' !in l && |Trim(l)| != 3
  }

  predicate SingleLines(ls: seq<string>) {
    forall i :: 0 <= i < |ls| ==> SingleLine(ls[i])
  }

  lemma {:induction false} SingleLinesSplit(ls: seq<string>)
    requires SingleLines(ls) && ls != []
    ensures SingleLines(ls[..|ls| - 1]) && SingleLine(ls[|ls| - 1])
  {
    var init := ls[..|ls| - 1];
    forall i | 0 <= i < |init| ensures SingleLine(init[i]) { assert init[i] == ls[i]; }
  }

  lemma {:induction false} SingleLinesAppend(a: seq<string>, b: seq<string>)
    requires SingleLines(a) && SingleLines(b)
    ensures SingleLines(a + b)
  {
    forall i | 0 <= i < |a + b| ensures SingleLine((a + b)[i]) {
      if i < |a| { assert (a + b)[i] == a[i]; } else { assert (a + b)[i] == b[i - |a|]; }
    }
  }

  lemma {:induction false} QuotedSingle(vs: seq<string>)
    requires NoBreaks(vs)
    ensures SingleLines(QuotedLines(vs))
    decreases |vs|
  {
    if vs != [] {
      var init, v := vs[..|vs| - 1], vs[|vs| - 1];
      var line := "  - '" + v + "'";
      assert QuotedLines(vs) == QuotedLines(init) + [line];
      forall i | 0 <= i < |init| ensures '\n' !in init[i] { assert init[i] == vs[i]; }
      QuotedSingle(init);
      var t := "- " + "'" + v + "'";
      assert line == "  " + t;
      TrimIndented("  ", t);
      assert SingleLines([line]);
      SingleLinesAppend(QuotedLines(init), [line]);
    }
  }

  lemma {:induction false} ListLinesSingle(h: string, vs: seq<string>)
    requires Trimmed(h) && '\n' !in h && |h| != 3 && NoBreaks(vs)
    ensures SingleLines(ListLines(h, vs))
  {
    if vs != [] {
      TrimOfTrimmed(h);
      assert SingleLines([h]);
      QuotedSingle(vs);
      SingleLinesAppend([h], QuotedLines(vs));
    }
  }

  lemma {:induction false} ListsLinesSingle(b: Board)
    requires NoBreaks(b.startedColumns) && NoBreaks(b.completedColumns)
    ensures SingleLines(ListsLines(b))
  {
    ListLinesSingle("startedColumns:", b.startedColumns);
    ListLinesSingle("completedColumns:", b.completedColumns);
    SingleLinesAppend(ListLines("startedColumns:", b.startedColumns), ListLines("completedColumns:", b.completedColumns));
  }

  /** The front matter `saveBoard` writes parses back to the two lists it was written from. */
  lemma {:induction false} ParseWrittenLists(b: Board, b0: Board)
    requires NoBreaks(b.startedColumns) && NoBreaks(b.completedColumns)
    ensures ParseFrontmatterSpec(Unlines(ListsLines(b)), b0)
            == b0.(startedColumns := b0.startedColumns + b.startedColumns,
                   completedColumns := b0.completedColumns + b.completedColumns)
  {
    var ls, lc := ListLines("startedColumns:", b.startedColumns), ListLines("completedColumns:", b.completedColumns);
    ListsLinesSingle(b);
    SplitUnlines(ListsLines(b));
    var st0 := FrontmatterScan(NoKey, b0);
    ScanFrontmatterAppend(st0, ls + lc, [""]);
    ScanFrontmatterAppend(st0, ls, lc);
    ScanStartedList(st0, b.startedColumns);
    var st1 := ScanFrontmatter(st0, ls);
    ScanCompletedList(st1, b.completedColumns);
    var st2 := ScanFrontmatter(st1, lc);
    ScanFrontmatterOne(st2, "");
  }

  lemma {:induction false} NoBreaksAppend(a: seq<string>, b: seq<string>)
    requires NoBreaks(a) && NoBreaks(b)
    ensures NoBreaks(a + b)
  {
    forall i | 0 <= i < |a + b| ensures '\n' !in (a + b)[i] {
      if i < |a| { assert (a + b)[i] == a[i]; } else { assert (a + b)[i] == b[i - |a|]; }
    }
  }

  // ---------------------------------------------------------------------------------------
  // The lines of index.md, one at a time

  /** A blank line changes nothing outside the front matter. */
  lemma {:induction false} BlankStep(st: IndexScan, files: Files)
    requires !st.inFrontmatter
    ensures ScanIndex(st, [""], files) == st
  {
    ScanIndexOne(st, "", files);
    assert Trim("") == "";
  }

  /** A `---` line outside the front matter opens it. */
  lemma {:induction false} OpenStep(st: IndexScan, files: Files)
    requires !st.inFrontmatter
    ensures ScanIndex(st, ["---"], files) == st.(inFrontmatter := true)
  {
    ScanIndexOne(st, "---", files);
    TrimOfTrimmed("---");
  }

  /** A `---` line inside the front matter closes it and reads the collected text. */
  lemma {:induction false} CloseStep(st: IndexScan, files: Files)
    requires st.inFrontmatter
    ensures ScanIndex(st, ["---"], files)
            == st.(inFrontmatter := false, board := ParseFrontmatterSpec(st.frontmatter, st.board))
  {
    ScanIndexOne(st, "---", files);
    TrimOfTrimmed("---");
  }

  lemma {:induction false} CollectStep(st: IndexScan, l: string, files: Files)
    requires st.inFrontmatter && SingleLine(l)
    ensures ScanIndex(st, [l], files) == st.(frontmatter := st.frontmatter + l + "\n")
  {
    ScanIndexOne(st, l, files);
  }

  lemma {:induction false} UnlinesSnocAfter(pre: string, init: seq<string>, l: string)
    ensures pre + Unlines(init) + l + "\n" == pre + Unlines(init + [l])
  {
    UnlinesSnoc(init, l);
  }

  /** Inside the front matter every line but `---` is collected, with its line break. */
  lemma {:induction false} CollectFrontmatter(st: IndexScan, ls: seq<string>, files: Files)
    requires st.inFrontmatter && SingleLines(ls)
    ensures ScanIndex(st, ls, files) == st.(frontmatter := st.frontmatter + Unlines(ls))
    decreases |ls|
  {
    if ls == [] {
      assert st.frontmatter + Unlines(ls) == st.frontmatter;
    } else {
      var init, l := ls[..|ls| - 1], ls[|ls| - 1];
      assert init + [l] == ls;
      SingleLinesSplit(ls);
      ScanIndexAppend(st, init, [l], files);
      CollectFrontmatter(st, init, files);
      CollectStep(st.(frontmatter := st.frontmatter + Unlines(init)), l, files);
      UnlinesSnocAfter(st.frontmatter, init, l);
    }
  }

  /** A line of `saveBoard`'s heading kind: not empty, one line, no trailing white space. */
  predicate HeadingText(s: string) {
    s != [] && '\n' !in s && !IsSpace(s[|s| - 1])
  }

  /** `# <title>` sets the title. */
  lemma {:induction false} TitleStep(st: IndexScan, title: string, files: Files)
    requires !st.inFrontmatter && HeadingText(title)
    ensures ScanIndex(st, ["# " + title], files) == st.(board := st.board.(title := title))
  {
    ScanIndexOne(st, "# " + title, files);
    var t := "# " + title;
    assert TrimEnd(title) == title;
    TrimAfterPrefix("# ", title);
    assert t[0] == '#' && t[..2] == "# " && t[2..] == title;
  }

  /** `## <name>` opens an empty column. */
  lemma {:induction false} HeadingStep(st: IndexScan, name: string, files: Files)
    requires !st.inFrontmatter && HeadingText(name)
    ensures ScanIndex(st, ["## " + name], files) == st.(board := st.board.(columns := st.board.columns + [Column(name, [])]))
  {
    ScanIndexOne(st, "## " + name, files);
    var t := "## " + name;
    assert TrimEnd(name) == name;
    TrimAfterPrefix("## ", name);
    assert |t| > 3 && t[..2][1] == '#' && t[..3] == "## " && t[3..] == name;
  }

  /** What a link line can carry back: text and target the link pattern recovers. */
  predicate TaskPrintable(t: TaskRef) {
    LinkTextSafe(t.title) && LinkTargetSafe(t.path)
  }

  /** The name of the column task links go to: the last one. */
  function LastName(b: Board): string
    requires |b.columns| > 0
  {
    b.columns[|b.columns| - 1].name
  }

  /** Tasks appended to the last column. */
  function AppendTasks(b: Board, ts: seq<TaskRef>): (r: Board)
    requires |b.columns| > 0
    ensures |r.columns| == |b.columns| && LastName(r) == LastName(b)
  {
    var last := b.columns[|b.columns| - 1];
    b.(columns := b.columns[|b.columns| - 1 := last.(tasks := last.tasks + ts)])
  }

  lemma {:induction false} AppendTasksTwice(b: Board, xs: seq<TaskRef>, ys: seq<TaskRef>)
    requires |b.columns| > 0
    ensures AppendTasks(AppendTasks(b, xs), ys) == AppendTasks(b, xs + ys)
  {
    var last := b.columns[|b.columns| - 1];
    assert last.tasks + xs + ys == last.tasks + (xs + ys);
  }

  /** A task link line is read by the link branch. */
  lemma {:induction false} TaskLineStep(st: IndexScan, t: TaskRef, files: Files)
    requires !st.inFrontmatter && |st.board.columns| > 0
    ensures IndexStep(st, TaskLine(t), files) == st.(board := LinkLine(st.board, TaskLine(t), files))
  {
    var l := TaskLine(t);
    assert l[0] == '-' && l[|l| - 1] == ')';
    TrimOfTrimmed(l);
    assert |l| > 3 && l[..2][0] == '-' && l[..3][0] == '-' && l[..3] == "- [";
    assert BodyLine(st.board, l, files) == LinkLine(st.board, l, files);
  }

  /** The link pattern gives back the title and the path the line was written from. */
  lemma {:induction false} LinkLineOfTask(b: Board, t: TaskRef, files: Files)
    requires |b.columns| > 0 && TaskPrintable(t)
    ensures LinkLine(b, TaskLine(t), files) == AppendTasks(b, [RefreshTask(t, LastName(b), files)])
  {
    assert TaskLine(t) == "- [" + t.title + "](" + t.path + ")" + "";
    MatchWrittenLink(t.title, t.path, "");
  }

  /** A task link line adds the task it names to the last column. */
  lemma {:induction false} TaskStep(st: IndexScan, t: TaskRef, files: Files)
    requires !st.inFrontmatter && |st.board.columns| > 0 && TaskPrintable(t)
    ensures ScanIndex(st, [TaskLine(t)], files)
            == st.(board := AppendTasks(st.board, [RefreshTask(t, LastName(st.board), files)]))
  {
    ScanIndexOne(st, TaskLine(t), files);
    TaskLineStep(st, t, files);
    LinkLineOfTask(st.board, t, files);
  }

  // ---------------------------------------------------------------------------------------
  // What a reload makes of the tasks

  /** The task `parseIndex` rebuilds from a link to `t` under the heading `name`. */
  function RefreshTask(t: TaskRef, name: string, files: Files): TaskRef {
    TaskOfLink(Link(t.title, t.path), name, files)
  }

  function RefreshTasks(ts: seq<TaskRef>, name: string, files: Files): (r: seq<TaskRef>)
    ensures |r| == |ts|
  {
    seq(|ts|, j requires 0 <= j < |ts| => RefreshTask(ts[j], name, files))
  }

  function RefreshColumn(c: Column, files: Files): Column {
    Column(c.name, RefreshTasks(c.tasks, c.name, files))
  }

  function RefreshColumns(cs: seq<Column>, files: Files): (r: seq<Column>)
    ensures |r| == |cs|
  {
    seq(|cs|, i requires 0 <= i < |cs| => RefreshColumn(cs[i], files))
  }

  /**
   * The board a reload gives: each task's id is the base name of its path, its description the
   * preview of its file, and its column the heading it is listed under.
   */
  function Refreshed(b: Board, files: Files): Board {
    b.(columns := RefreshColumns(b.columns, files))
  }

  lemma {:induction false} RefreshTasksSnoc(ts: seq<TaskRef>, name: string, files: Files)
    requires ts != []
    ensures RefreshTasks(ts, name, files)
            == RefreshTasks(ts[..|ts| - 1], name, files) + [RefreshTask(ts[|ts| - 1], name, files)]
  {
  }

  lemma {:induction false} TaskLinesSnoc(ts: seq<TaskRef>)
    requires ts != []
    ensures TaskLines(ts) == TaskLines(ts[..|ts| - 1]) + [TaskLine(ts[|ts| - 1])]
  {
  }

  /** Task links, one per line, land in the last column in their order. */
  lemma {:induction false} ScanTasks(st: IndexScan, ts: seq<TaskRef>, files: Files)
    requires !st.inFrontmatter && |st.board.columns| > 0
    requires forall j :: 0 <= j < |ts| ==> TaskPrintable(ts[j])
    ensures ScanIndex(st, TaskLines(ts), files)
            == st.(board := AppendTasks(st.board, RefreshTasks(ts, LastName(st.board), files)))
    decreases |ts|
  {
    var name := LastName(st.board);
    if ts == [] {
      var last := st.board.columns[|st.board.columns| - 1];
      assert last.tasks + RefreshTasks(ts, name, files) == last.tasks;
      assert st.board.columns[|st.board.columns| - 1 := last] == st.board.columns;
    } else {
      var init, t := ts[..|ts| - 1], ts[|ts| - 1];
      TaskLinesSnoc(ts);
      RefreshTasksSnoc(ts, name, files);
      ScanIndexAppend(st, TaskLines(init), [TaskLine(t)], files);
      ScanTasks(st, init, files);
      var mid := st.(board := AppendTasks(st.board, RefreshTasks(init, name, files)));
      TaskStep(mid, t, files);
      AppendTasksTwice(st.board, RefreshTasks(init, name, files), [RefreshTask(t, name, files)]);
    }
  }

  /** A column `saveBoard` can write so that it reads back: a heading name and printable tasks. */
  predicate ColumnPrintable(c: Column) {
    HeadingText(c.name) && forall j :: 0 <= j < |c.tasks| ==> TaskPrintable(c.tasks[j])
  }

  /**
   * A board whose text reads back: a title and column names on one line with no trailing
   * white space, list values on one line, task titles and paths the link pattern recovers.
   */
  predicate Printable(b: Board) {
    && HeadingText(b.title)
    && NoBreaks(b.startedColumns) && NoBreaks(b.completedColumns)
    && forall i :: 0 <= i < |b.columns| ==> ColumnPrintable(b.columns[i])
  }

  lemma {:induction false} AppendTasksToNew(b: Board, name: string, ts: seq<TaskRef>)
    ensures AppendTasks(b.(columns := b.columns + [Column(name, [])]), ts)
            == b.(columns := b.columns + [Column(name, ts)])
  {
    var cs := b.columns + [Column(name, [])];
    assert [] + ts == ts;
    assert cs[|cs| - 1 := Column(name, ts)] == b.columns + [Column(name, ts)];
  }

  lemma {:induction false} ColumnLinesSplit(c: Column)
    ensures ColumnLines(c) == ["## " + c.name] + [""] + TaskLines(c.tasks) + [""]
  {
  }

  /** One written column reads back as its refreshed self, appended after the others. */
  lemma {:induction false} ScanColumn(st: IndexScan, c: Column, files: Files)
    requires !st.inFrontmatter && ColumnPrintable(c)
    ensures ScanIndex(st, ColumnLines(c), files)
            == st.(board := st.board.(columns := st.board.columns + [RefreshColumn(c, files)]))
  {
    var h, ts := "## " + c.name, TaskLines(c.tasks);
    ColumnLinesSplit(c);
    ScanIndexAppend(st, [h] + [""] + ts, [""], files);
    ScanIndexAppend(st, [h] + [""], ts, files);
    ScanIndexAppend(st, [h], [""], files);
    HeadingStep(st, c.name, files);
    var s1 := st.(board := st.board.(columns := st.board.columns + [Column(c.name, [])]));
    BlankStep(s1, files);
    ScanTasks(s1, c.tasks, files);
    var s2 := s1.(board := AppendTasks(s1.board, RefreshTasks(c.tasks, c.name, files)));
    BlankStep(s2, files);
    AppendTasksToNew(st.board, c.name, RefreshTasks(c.tasks, c.name, files));
  }

  lemma {:induction false} RefreshColumnsSnoc(cs: seq<Column>, files: Files)
    requires cs != []
    ensures RefreshColumns(cs, files) == RefreshColumns(cs[..|cs| - 1], files) + [RefreshColumn(cs[|cs| - 1], files)]
  {
  }

  /** The written columns read back, refreshed, in their order. */
  lemma {:induction false} ScanColumns(st: IndexScan, cs: seq<Column>, files: Files)
    requires !st.inFrontmatter && forall i :: 0 <= i < |cs| ==> ColumnPrintable(cs[i])
    ensures ScanIndex(st, ColumnsLines(cs), files)
            == st.(board := st.board.(columns := st.board.columns + RefreshColumns(cs, files)))
    decreases |cs|
  {
    if cs == [] {
      assert st.board.columns + RefreshColumns(cs, files) == st.board.columns;
    } else {
      var init, c := cs[..|cs| - 1], cs[|cs| - 1];
      RefreshColumnsSnoc(cs, files);
      assert st.board.columns + RefreshColumns(init, files) + [RefreshColumn(c, files)]
          == st.board.columns + RefreshColumns(cs, files);
      ScanIndexAppend(st, ColumnsLines(init), ColumnLines(c), files);
      ScanColumns(st, init, files);
      var mid := st.(board := st.board.(columns := st.board.columns + RefreshColumns(init, files)));
      ScanColumn(mid, c, files);
    }
  }

  lemma {:induction false} HeadLinesSplit(b: Board)
    ensures HeadLines(b) == ["---"] + ListsLines(b) + ["---"] + [""] + ["# " + b.title] + [""]
  {
  }

  /** The front matter and the title read back; no column is open yet. */
  lemma {:induction false} ScanHead(b: Board, files: Files)
    requires HeadingText(b.title) && NoBreaks(b.startedColumns) && NoBreaks(b.completedColumns)
    ensures ScanIndex(InitialScan, HeadLines(b), files)
            == IndexScan(Board(b.title, [], b.startedColumns, b.completedColumns), false, Unlines(ListsLines(b)))
  {
    var ll := ListsLines(b);
    HeadLinesSplit(b);
    var s0 := InitialScan;
    ScanIndexAppend(s0, ["---"] + ll + ["---"] + [""] + ["# " + b.title], [""], files);
    ScanIndexAppend(s0, ["---"] + ll + ["---"] + [""], ["# " + b.title], files);
    ScanIndexAppend(s0, ["---"] + ll + ["---"], [""], files);
    ScanIndexAppend(s0, ["---"] + ll, ["---"], files);
    ScanIndexAppend(s0, ["---"], ll, files);
    OpenStep(s0, files);
    var s1 := s0.(inFrontmatter := true);
    ListsLinesSingle(b);
    CollectFrontmatter(s1, ll, files);
    var s2 := s1.(frontmatter := "" + Unlines(ll));
    assert "" + Unlines(ll) == Unlines(ll);
    CloseStep(s2, files);
    ParseWrittenLists(b, InitialBoard);
    assert [] + b.startedColumns == b.startedColumns && [] + b.completedColumns == b.completedColumns;
    var s3 := IndexScan(Board(DefaultTitle, [], b.startedColumns, b.completedColumns), false, Unlines(ll));
    BlankStep(s3, files);
    TitleStep(s3, b.title, files);
    BlankStep(s3.(board := s3.board.(title := b.title)), files);
  }

  lemma {:induction false} NoTerminatorNoBreak(s: string)
    requires NoLineTerminator(s)
    ensures '\n' !in s
  {
    forall i | 0 <= i < |s| ensures s[i] != '\n' {
      assert !IsLineTerminator(s[i]);
    }
  }

  lemma {:induction false} SingleNoBreaks(ls: seq<string>)
    requires SingleLines(ls)
    ensures NoBreaks(ls)
  {
    forall i | 0 <= i < |ls| ensures '\n' !in ls[i] { assert SingleLine(ls[i]); }
  }

  lemma {:induction false} TaskLinesNoBreaks(ts: seq<TaskRef>)
    requires forall j :: 0 <= j < |ts| ==> TaskPrintable(ts[j])
    ensures NoBreaks(TaskLines(ts))
    decreases |ts|
  {
    if ts != [] {
      var init, t := ts[..|ts| - 1], ts[|ts| - 1];
      TaskLinesSnoc(ts);
      assert forall j :: 0 <= j < |init| ==> TaskPrintable(init[j]) by {
        forall j | 0 <= j < |init| ensures TaskPrintable(init[j]) { assert init[j] == ts[j]; }
      }
      TaskLinesNoBreaks(init);
      NoTerminatorNoBreak(t.title);
      NoTerminatorNoBreak(t.path);
      assert NoBreaks([TaskLine(t)]);
      NoBreaksAppend(TaskLines(init), [TaskLine(t)]);
    }
  }

  lemma {:induction false} ColumnsLinesNoBreaks(cs: seq<Column>)
    requires forall i :: 0 <= i < |cs| ==> ColumnPrintable(cs[i])
    ensures NoBreaks(ColumnsLines(cs))
    decreases |cs|
  {
    if cs != [] {
      var init, c := cs[..|cs| - 1], cs[|cs| - 1];
      assert forall i :: 0 <= i < |init| ==> ColumnPrintable(init[i]) by {
        forall i | 0 <= i < |init| ensures ColumnPrintable(init[i]) { assert init[i] == cs[i]; }
      }
      ColumnsLinesNoBreaks(init);
      TaskLinesNoBreaks(c.tasks);
      ColumnLinesSplit(c);
      assert NoBreaks(["## " + c.name] + [""]);
      NoBreaksAppend(["## " + c.name] + [""], TaskLines(c.tasks));
      NoBreaksAppend(["## " + c.name] + [""] + TaskLines(c.tasks), [""]);
      NoBreaksAppend(ColumnsLines(init), ColumnLines(c));
    }
  }

  lemma {:induction false} IndexLinesNoBreaks(b: Board)
    requires Printable(b)
    ensures NoBreaks(IndexLines(b))
  {
    ListsLinesSingle(b);
    SingleNoBreaks(ListsLines(b));
    HeadLinesSplit(b);
    assert NoBreaks(["---"]) && NoBreaks(["---"] + [""] + ["# " + b.title] + [""]);
    NoBreaksAppend(["---"], ListsLines(b));
    NoBreaksAppend(["---"] + ListsLines(b), ["---"] + [""] + ["# " + b.title] + [""]);
    assert HeadLines(b) == ["---"] + ListsLines(b) + (["---"] + [""] + ["# " + b.title] + [""]);
    ColumnsLinesNoBreaks(b.columns);
    NoBreaksAppend(HeadLines(b), ColumnsLines(b.columns));
  }

  /**
   * Load after save: the text `saveBoard` writes for a printable board parses back to that board,
   * each task refreshed from its link, its file and the heading it is listed under.
   */
  lemma {:induction false} ParseIndexText(b: Board, files: Files)
    requires Printable(b)
    ensures ParseIndexSpec(IndexText(b), files) == Refreshed(b, files)
  {
    IndexLinesNoBreaks(b);
    SplitUnlines(IndexLines(b));
    ScanIndexAppend(InitialScan, IndexLines(b), [""], files);
    ScanIndexAppend(InitialScan, HeadLines(b), ColumnsLines(b.columns), files);
    ScanHead(b, files);
    var s := IndexScan(Board(b.title, [], b.startedColumns, b.completedColumns), false, Unlines(ListsLines(b)));
    ScanColumns(s, b.columns, files);
    assert [] + RefreshColumns(b.columns, files) == RefreshColumns(b.columns, files);
    BlankStep(s.(board := s.board.(columns := RefreshColumns(b.columns, files))), files);
  }

  // ---------------------------------------------------------------------------------------
  // What parseIndex produces

  /** Every task of the column is what its own link under this heading reads back as. */
  predicate ColumnFresh(c: Column, files: Files) {
    forall j :: 0 <= j < |c.tasks| ==> c.tasks[j] == RefreshTask(c.tasks[j], c.name, files)
  }

  predicate Fresh(b: Board, files: Files) {
    forall i :: 0 <= i < |b.columns| ==> ColumnFresh(b.columns[i], files)
  }

  /** A board that is already fresh is its own refresh. */
  lemma {:induction false} FreshRefreshed(b: Board, files: Files)
    requires Fresh(b, files)
    ensures Refreshed(b, files) == b
  {
    forall i | 0 <= i < |b.columns| ensures RefreshColumn(b.columns[i], files) == b.columns[i] {
      var c := b.columns[i];
      assert ColumnFresh(c, files);
      assert RefreshTasks(c.tasks, c.name, files) == c.tasks;
    }
    assert RefreshColumns(b.columns, files) == b.columns;
  }

  /** A front-matter value is cut from its line, so it holds no line break either. */
  lemma {:induction false} FrontmatterStepKeeps(st: FrontmatterScan, line: string)
    requires '\n' !in line && NoBreaks(st.board.startedColumns) && NoBreaks(st.board.completedColumns)
    ensures var r := FrontmatterStep(st, line);
            NoBreaks(r.board.startedColumns) && NoBreaks(r.board.completedColumns)
  {
    var t := Trim(line);
    if |t| > 0 {
      var u := Trim(t[1..]);
      InSlice(t, 1, |t|, '\n');
      var v := Unquote(u);
      assert '\n' !in v;
      NoBreaksAppend(st.board.startedColumns, [v]);
      NoBreaksAppend(st.board.completedColumns, [v]);
    }
  }

  lemma {:induction false} FrontmatterKeeps(st: FrontmatterScan, lines: seq<string>, i: nat)
    requires NoBreaks(lines) && NoBreaks(st.board.startedColumns) && NoBreaks(st.board.completedColumns)
    ensures var r := ScanFrom(FrontmatterStep, st, lines, i);
            NoBreaks(r.board.startedColumns) && NoBreaks(r.board.completedColumns)
    decreases |lines| - i
  {
    if i < |lines| {
      FrontmatterStepKeeps(st, lines[i]);
      FrontmatterKeeps(FrontmatterStep(st, lines[i]), lines, i + 1);
    }
  }

  /** A trimmed line that starts with `p` (ending in a space) leaves a heading text after `p`. */
  lemma {:induction false} HeadingAfter(t: string, p: string)
    requires Trimmed(t) && '\n' !in t && StartsWith(t, p) && p != [] && p[|p| - 1] == ' '
    ensures HeadingText(t[|p|..])
  {
    assert t[|p| - 1] == t[..|p|][|p| - 1] == ' ';
    assert |t| > |p|;
    InSlice(t, |p|, |t|, '\n');
    assert t[|p|..][|t| - |p| - 1] == t[|t| - 1];
  }

  lemma {:induction false} AppendToLastKeeps(b: Board, t: TaskRef, files: Files)
    requires |b.columns| > 0 && Printable(b) && Fresh(b, files)
    requires TaskPrintable(t) && t == RefreshTask(t, LastName(b), files)
    ensures Printable(AppendToLast(b, t)) && Fresh(AppendToLast(b, t), files)
  {
    var n := |b.columns|;
    var last := b.columns[n - 1];
    var c := last.(tasks := last.tasks + [t]);
    assert ColumnPrintable(last) && ColumnFresh(last, files);
    assert ColumnPrintable(c) by {
      forall j | 0 <= j < |c.tasks| ensures TaskPrintable(c.tasks[j]) {
        if j < |last.tasks| { assert c.tasks[j] == last.tasks[j]; }
      }
    }
    assert ColumnFresh(c, files) by {
      forall j | 0 <= j < |c.tasks| ensures c.tasks[j] == RefreshTask(c.tasks[j], c.name, files) {
        if j < |last.tasks| { assert c.tasks[j] == last.tasks[j]; }
      }
    }
    var r := AppendToLast(b, t);
    assert r.columns == b.columns[n - 1 := c];
    forall i | 0 <= i < n ensures ColumnPrintable(r.columns[i]) && ColumnFresh(r.columns[i], files) {
      if i < n - 1 { assert r.columns[i] == b.columns[i]; }
    }
  }

  lemma {:induction false} AddColumnKeeps(b: Board, name: string, files: Files)
    requires Printable(b) && Fresh(b, files) && HeadingText(name)
    ensures var r := b.(columns := b.columns + [Column(name, [])]);
            Printable(r) && Fresh(r, files)
  {
    var cs := b.columns + [Column(name, [])];
    forall i | 0 <= i < |cs| ensures ColumnPrintable(cs[i]) && ColumnFresh(cs[i], files) {
      if i < |b.columns| { assert cs[i] == b.columns[i]; }
    }
  }

  /** A line outside the front matter keeps the board printable and fresh. */
  lemma {:induction false} BodyLineKeeps(b: Board, t: string, files: Files)
    requires Trimmed(t) && '\n' !in t && Printable(b) && Fresh(b, files)
    ensures Printable(BodyLine(b, t, files)) && Fresh(BodyLine(b, t, files), files)
  {
    if StartsWith(t, "# ") {
      HeadingAfter(t, "# ");
    } else if StartsWith(t, "## ") {
      HeadingAfter(t, "## ");
      AddColumnKeeps(b, t[3..], files);
    } else if StartsWith(t, "- [") && |b.columns| > 0 {
      match MatchLink(t)
      case None =>
      case Some(link) =>
        var task := TaskOfLink(link, LastName(b), files);
        assert link == Link(task.title, task.path);
        AppendToLastKeeps(b, task, files);
    }
  }

  /** One line of index.md keeps the board printable and fresh. */
  lemma {:induction false} StepKeeps(st: IndexScan, line: string, files: Files)
    requires '\n' !in line && Printable(st.board) && Fresh(st.board, files)
    ensures Printable(IndexStep(st, line, files).board) && Fresh(IndexStep(st, line, files).board, files)
  {
    var t := Trim(line);
    if t == "---" {
      if st.inFrontmatter {
        var lines := SplitLines(st.frontmatter);
        assert NoBreaks(lines);
        FrontmatterKeeps(FrontmatterScan(NoKey, st.board), lines, 0);
        assert IndexStep(st, line, files).board == ParseFrontmatterSpec(st.frontmatter, st.board);
      }
    } else if !st.inFrontmatter {
      BodyLineKeeps(st.board, t, files);
      assert IndexStep(st, line, files).board == BodyLine(st.board, t, files);
    }
  }

  lemma {:induction false} ScanKeeps(st: IndexScan, lines: seq<string>, i: nat, files: Files)
    requires NoBreaks(lines) && Printable(st.board) && Fresh(st.board, files)
    ensures var r := ScanFrom(IndexStepper(files), st, lines, i);
            Printable(r.board) && Fresh(r.board, files)
    decreases |lines| - i
  {
    if i < |lines| {
      StepKeeps(st, lines[i], files);
      ScanKeeps(IndexStep(st, lines[i], files), lines, i + 1, files);
    }
  }

  /** Whatever index.md holds, the board read from it is printable and fresh. */
  lemma {:induction false} ParsedPrintable(content: string, files: Files)
    ensures Printable(ParseIndexSpec(content, files)) && Fresh(ParseIndexSpec(content, files), files)
  {
    assert HeadingText(DefaultTitle);
    ScanKeeps(InitialScan, SplitLines(content), 0, files);
  }

  /** Load, save, load: the second load gives the board the first one gave. */
  lemma {:induction false} ReloadIsFixpoint(content: string, files: Files)
    ensures ParseIndexSpec(IndexText(ParseIndexSpec(content, files)), files) == ParseIndexSpec(content, files)
  {
    var b := ParseIndexSpec(content, files);
    ParsedPrintable(content, files);
    ParseIndexText(b, files);
    FreshRefreshed(b, files);
  }

  /** Refreshing leaves the text alone: titles, paths and names are all `saveBoard` writes. */
  lemma {:induction false} TaskLinesRefreshed(ts: seq<TaskRef>, name: string, files: Files)
    ensures TaskLines(RefreshTasks(ts, name, files)) == TaskLines(ts)
    decreases |ts|
  {
    if ts != [] {
      var init := ts[..|ts| - 1];
      RefreshTasksSnoc(ts, name, files);
      TaskLinesSnoc(ts);
      var r := RefreshTasks(ts, name, files);
      TaskLinesSnoc(r);
      assert r[..|r| - 1] == RefreshTasks(init, name, files);
      TaskLinesRefreshed(init, name, files);
    }
  }

  lemma {:induction false} ColumnsLinesRefreshed(cs: seq<Column>, files: Files)
    ensures ColumnsLines(RefreshColumns(cs, files)) == ColumnsLines(cs)
    decreases |cs|
  {
    if cs != [] {
      var init, c := cs[..|cs| - 1], cs[|cs| - 1];
      RefreshColumnsSnoc(cs, files);
      var r := RefreshColumns(cs, files);
      assert r[..|r| - 1] == RefreshColumns(init, files) && r[|r| - 1] == RefreshColumn(c, files);
      ColumnsLinesRefreshed(init, files);
      TaskLinesRefreshed(c.tasks, c.name, files);
    }
  }

  /** Save, load, save: the second save writes the text the first one wrote. */
  lemma {:induction false} ResaveIsFixpoint(b: Board, files: Files)
    requires Printable(b)
    ensures IndexText(ParseIndexSpec(IndexText(b), files)) == IndexText(b)
  {
    ParseIndexText(b, files);
    ColumnsLinesRefreshed(b.columns, files);
  }

  // ---------------------------------------------------------------------------------------
  // The index createBoard writes

  /** The list an indented key line selects. */
  function KeyOf(k: string): ListKey {
    if k == "startedColumns:" then Started else Completed
  }

  /** An indented key line selects its list. */
  lemma {:induction false} IndentedKeyStep(st: FrontmatterScan, ws: string, k: string)
    requires AllSpace(ws) && (k == "startedColumns:" || k == "completedColumns:")
    ensures FrontmatterStep(st, ws + k) == st.(key := KeyOf(k))
  {
    TrimIndented(ws, k);
    assert k[..|k|] == k;
    if k == "completedColumns:" {
      assert !StartsWith(k, "startedColumns:") by { assert k[..15][0] == 'c'; }
    }
  }

  /** The value of the item `- <v>` is `v` itself when `v` is trimmed and unquoted. */
  lemma {:induction false} DashValue(v: string)
    requires Trimmed(v) && v != [] && v[0] != '\'' && v[0] != '"'
    ensures Unquote(Trim(("- " + v)[1..])) == v
  {
    assert ("- " + v)[1..] == " " + v;
    TrimIndented(" ", v);
  }

  /** An indented unquoted item `- <v>` joins the current list as `v`. */
  lemma {:induction false} IndentedItemStep(st: FrontmatterScan, ws: string, v: string)
    requires AllSpace(ws) && Trimmed(v) && v != [] && v[0] != '\'' && v[0] != '"' && st.key != NoKey
    ensures FrontmatterStep(st, ws + ("- " + v)) == PushValues(st, [v])
  {
    var t := "- " + v;
    TrimIndented(ws, t);
    DashLine(st, ws + t, t);
    DashValue(v);
  }

  /** A value `createBoard` lists unquoted in its settings. */
  predicate PlainValue(v: string) {
    Trimmed(v) && |v| > 1 && v[0] != '\'' && v[0] != '"' && '\n' !in v
  }

  /** A key line with one item under it, both indented. */
  lemma {:induction false} KeyItemBlock(st: FrontmatterScan, ws: string, k: string, ws2: string, v: string)
    requires AllSpace(ws) && AllSpace(ws2) && (k == "startedColumns:" || k == "completedColumns:") && PlainValue(v)
    ensures ScanFrontmatter(st, [ws + k, ws2 + ("- " + v)]) == PushValues(st.(key := KeyOf(k)), [v])
  {
    var l1, l2 := ws + k, ws2 + ("- " + v);
    assert [l1, l2] == [l1] + [l2];
    ScanFrontmatterAppend(st, [l1], [l2]);
    ScanFrontmatterOne(st, l1);
    IndentedKeyStep(st, ws, k);
    ScanFrontmatterOne(st.(key := KeyOf(k)), l2);
    IndentedItemStep(st.(key := KeyOf(k)), ws2, v);
  }

  /** The lines of the settings block: a heading line and the two nested lists. */
  function SettingsLines(l0: string, ws: string, ws2: string, done: string, prog: string): seq<string> {
    [l0] + [ws + "completedColumns:", ws2 + ("- " + done)] + [ws + "startedColumns:", ws2 + ("- " + prog)]
  }

  /** A line too short to be a key and not an item: the `settings:` line. */
  predicate OtherLine(l: string) {
    Trimmed(l) && 3 < |l| < 15 && l[0] != '-' && '\n' !in l
  }

  /** The nested settings block: only the two list keys and their items are recognised. */
  lemma {:induction false} ScanSettings(b: Board, l0: string, ws: string, ws2: string, done: string, prog: string)
    requires OtherLine(l0)
    requires AllSpace(ws) && AllSpace(ws2) && PlainValue(done) && PlainValue(prog)
    ensures ScanFrontmatter(FrontmatterScan(NoKey, b), SettingsLines(l0, ws, ws2, done, prog) + [""]).board
            == b.(startedColumns := b.startedColumns + [prog], completedColumns := b.completedColumns + [done])
  {
    var s0 := FrontmatterScan(NoKey, b);
    var c, s := [ws + "completedColumns:", ws2 + ("- " + done)], [ws + "startedColumns:", ws2 + ("- " + prog)];
    ScanFrontmatterAppend(s0, [l0] + c + s, [""]);
    ScanFrontmatterAppend(s0, [l0] + c, s);
    ScanFrontmatterAppend(s0, [l0], c);
    ScanFrontmatterOne(s0, l0);
    TrimOfTrimmed(l0);
    assert !StartsWith(l0, "-") by { assert l0[..1][0] == l0[0]; }
    KeyItemBlock(s0, ws, "completedColumns:", ws2, done);
    var s2 := PushValues(s0.(key := Completed), [done]);
    KeyItemBlock(s2, ws, "startedColumns:", ws2, prog);
    var s4 := PushValues(s2.(key := Started), [prog]);
    ScanFrontmatterOne(s4, "");
    assert Trim("") == "";
  }

  /** The title a board named `name` gets back from its index: the name without trailing space. */
  function DefaultBoardTitle(name: string): string {
    if TrimEnd(name) == [] then DefaultTitle else TrimEnd(name)
  }

  /**
   * `# <name>` for any one-line name: a name of white space only leaves the line as `#`,
   * which sets no title; any other name sets the title to the name without trailing space.
   */
  lemma {:induction false} TitleLineStep(st: IndexScan, name: string, files: Files)
    requires !st.inFrontmatter && '\n' !in name
    ensures ScanIndex(st, ["# " + name], files)
            == if TrimEnd(name) == [] then st else st.(board := st.board.(title := TrimEnd(name)))
  {
    if TrimEnd(name) == [] {
      TitleLineBlank(st, name, files);
    } else {
      TitleLineNamed(st, name, files);
    }
  }

  /** `# ` followed by white space only trims to `#`, which is no title line. */
  lemma {:induction false} TitleLineBlank(st: IndexScan, name: string, files: Files)
    requires !st.inFrontmatter && TrimEnd(name) == []
    ensures ScanIndex(st, ["# " + name], files) == st
  {
    var l := "# " + name;
    TrimEndBlank(name);
    assert l == "#" + (" " + name);
    assert AllSpace(" " + name) by {
      forall i | 0 <= i < |" " + name| ensures IsSpace((" " + name)[i]) {
        if i > 0 { assert (" " + name)[i] == name[i - 1]; }
      }
    }
    TrimEndSkips("#", " " + name);
    assert TrimEnd("#") == "#" by { assert TrimEnd("#") == "#"[..|TrimEnd("#")|]; }
    assert Trim(l) == "#";
    ScanIndexOne(st, l, files);
  }

  lemma {:induction false} TitleLineNamed(st: IndexScan, name: string, files: Files)
    requires !st.inFrontmatter && TrimEnd(name) != []
    ensures ScanIndex(st, ["# " + name], files) == st.(board := st.board.(title := TrimEnd(name)))
  {
    TrimAfterPrefix("# ", name);
    var t := "# " + TrimEnd(name);
    assert t[0] == '#' && t[..2] == "# " && t[2..] == TrimEnd(name);
    ScanIndexOne(st, "# " + name, files);
  }

  /** A blank line before a line changes nothing. */
  lemma {:induction false} BlankBefore(st: IndexScan, l: string, files: Files)
    requires !st.inFrontmatter
    ensures ScanIndex(st, ["", l], files) == ScanIndex(st, [l], files)
  {
    assert ["", l] == [""] + [l];
    ScanIndexAppend(st, [""], [l], files);
    BlankStep(st, files);
  }

  /** The body of the default index: blank-separated headings for three empty columns. */
  function ThreeColumnLines(a: string, b: string, c: string): seq<string> {
    ["", "## " + a] + ["", "## " + b] + ["", "## " + c] + [""]
  }

  /** A blank line and a heading open one empty column. */
  lemma {:induction false} BlankHeading(st: IndexScan, a: string, files: Files)
    requires !st.inFrontmatter && HeadingText(a)
    ensures ScanIndex(st, ["", "## " + a], files) == st.(board := st.board.(columns := st.board.columns + [Column(a, [])]))
  {
    BlankBefore(st, "## " + a, files);
    HeadingStep(st, a, files);
  }

  lemma {:induction false} ScanThreeColumns(st: IndexScan, a: string, b: string, c: string, files: Files)
    requires !st.inFrontmatter && HeadingText(a) && HeadingText(b) && HeadingText(c)
    ensures ScanIndex(st, ThreeColumnLines(a, b, c), files)
            == st.(board := st.board.(columns := st.board.columns + [Column(a, []), Column(b, []), Column(c, [])]))
  {
    var la, lb, lc := ["", "## " + a], ["", "## " + b], ["", "## " + c];
    var cols := st.board.columns;
    assert cols + [Column(a, [])] + [Column(b, [])] + [Column(c, [])] == cols + [Column(a, []), Column(b, []), Column(c, [])];
    var s1 := st.(board := st.board.(columns := cols + [Column(a, [])]));
    var s2 := s1.(board := s1.board.(columns := s1.board.columns + [Column(b, [])]));
    var s3 := s2.(board := s2.board.(columns := s2.board.columns + [Column(c, [])]));
    ScanIndexAppend(st, la + lb + lc, [""], files);
    ScanIndexAppend(st, la + lb, lc, files);
    ScanIndexAppend(st, la, lb, files);
    BlankHeading(st, a, files);
    BlankHeading(s1, b, files);
    BlankHeading(s2, c, files);
    BlankStep(s3, files);
  }

  /** An indented trimmed line that is not `---` is collected as one line. */
  lemma {:induction false} IndentedSingle(ws: string, t: string)
    requires AllSpace(ws) && '\n' !in ws && Trimmed(t) && '\n' !in t && |t| != 3
    ensures SingleLine(ws + t)
  {
    TrimIndented(ws, t);
  }

  /** The item line `- <v>` is trimmed when `v` is. */
  lemma {:induction false} ItemTrimmed(v: string)
    requires PlainValue(v)
    ensures Trimmed("- " + v) && '\n' !in "- " + v && |"- " + v| > 3
  {
    var t := "- " + v;
    assert t[|t| - 1] == v[|v| - 1];
    assert '\n' !in t by {
      forall i | 0 <= i < |t| ensures t[i] != '\n' {
        if i >= 2 { assert t[i] == v[i - 2]; }
      }
    }
  }

  /** A key line and its item line are each collected as one line. */
  lemma {:induction false} KeyItemSingle(ws: string, k: string, ws2: string, v: string)
    requires AllSpace(ws) && AllSpace(ws2) && '\n' !in ws && '\n' !in ws2
    requires (k == "startedColumns:" || k == "completedColumns:") && PlainValue(v)
    ensures SingleLines([ws + k, ws2 + ("- " + v)])
  {
    IndentedSingle(ws, k);
    ItemTrimmed(v);
    IndentedSingle(ws2, "- " + v);
  }

  lemma {:induction false} SettingsSingle(l0: string, ws: string, ws2: string, done: string, prog: string)
    requires OtherLine(l0)
    requires AllSpace(ws) && AllSpace(ws2) && '\n' !in ws && '\n' !in ws2 && PlainValue(done) && PlainValue(prog)
    ensures SingleLines(SettingsLines(l0, ws, ws2, done, prog))
  {
    var c, d := [ws + "completedColumns:", ws2 + ("- " + done)], [ws + "startedColumns:", ws2 + ("- " + prog)];
    TrimOfTrimmed(l0);
    assert SingleLines([l0]);
    KeyItemSingle(ws, "completedColumns:", ws2, done);
    KeyItemSingle(ws, "startedColumns:", ws2, prog);
    SingleLinesAppend([l0], c);
    SingleLinesAppend([l0] + c, d);
  }

  /** The front matter createBoard writes, between its two `---` lines, fills the two lists. */
  lemma {:induction false} ScanSettingsBlock(st: IndexScan, l0: string, ws: string, ws2: string, done: string, prog: string, files: Files)
    requires !st.inFrontmatter && st.frontmatter == []
    requires OtherLine(l0)
    requires AllSpace(ws) && AllSpace(ws2) && '\n' !in ws && '\n' !in ws2 && PlainValue(done) && PlainValue(prog)
    ensures ScanIndex(st, ["---"] + SettingsLines(l0, ws, ws2, done, prog) + ["---"], files)
            == IndexScan(st.board.(startedColumns := st.board.startedColumns + [prog],
                                   completedColumns := st.board.completedColumns + [done]),
                         false, Unlines(SettingsLines(l0, ws, ws2, done, prog)))
  {
    var ls := SettingsLines(l0, ws, ws2, done, prog);
    var s1 := st.(inFrontmatter := true);
    var s2 := s1.(frontmatter := Unlines(ls));
    assert s1.frontmatter + Unlines(ls) == Unlines(ls);
    ScanIndexAppend(st, ["---"] + ls, ["---"], files);
    ScanIndexAppend(st, ["---"], ls, files);
    OpenStep(st, files);
    SettingsSingle(l0, ws, ws2, done, prog);
    CollectFrontmatter(s1, ls, files);
    CloseStep(s2, files);
    SplitUnlines(ls);
    ScanSettings(st.board, l0, ws, ws2, done, prog);
  }

  /** The lines of an index laid out as createBoard lays it out, with its pieces as parameters. */
  function CreatedLines(name: string, l0: string, ws: string, ws2: string, done: string, prog: string,
                        a: string, b: string, c: string): seq<string> {
    ["---"] + SettingsLines(l0, ws, ws2, done, prog) + ["---"] + ["", "# " + name] + ThreeColumnLines(a, b, c)
  }

  /** After the front matter: the title line and the three column headings. */
  lemma {:induction false} ScanCreatedBody(st: IndexScan, name: string, a: string, b: string, c: string, files: Files)
    requires !st.inFrontmatter && st.board.title == DefaultTitle && st.board.columns == [] && '\n' !in name
    requires HeadingText(a) && HeadingText(b) && HeadingText(c)
    ensures ScanIndex(st, ["", "# " + name] + ThreeColumnLines(a, b, c), files).board
            == st.board.(title := DefaultBoardTitle(name), columns := [Column(a, []), Column(b, []), Column(c, [])])
  {
    var s2 := st.(board := st.board.(title := DefaultBoardTitle(name)));
    var cols := [Column(a, []), Column(b, []), Column(c, [])];
    assert s2.board.columns + cols == cols;
    ScanIndexAppend(st, ["", "# " + name], ThreeColumnLines(a, b, c), files);
    HeadingLineAfter(st, name, files);
    ScanThreeColumns(s2, a, b, c, files);
  }

  lemma {:induction false} ScanCreated(name: string, l0: string, ws: string, ws2: string, done: string, prog: string,
                    a: string, b: string, c: string, files: Files)
    requires '\n' !in name && OtherLine(l0)
    requires AllSpace(ws) && AllSpace(ws2) && '\n' !in ws && '\n' !in ws2 && PlainValue(done) && PlainValue(prog)
    requires HeadingText(a) && HeadingText(b) && HeadingText(c)
    ensures ScanIndex(InitialScan, CreatedLines(name, l0, ws, ws2, done, prog, a, b, c), files).board
            == Board(DefaultBoardTitle(name), [Column(a, []), Column(b, []), Column(c, [])], [prog], [done])
  {
    var h := ["---"] + SettingsLines(l0, ws, ws2, done, prog) + ["---"];
    var t := ["", "# " + name] + ThreeColumnLines(a, b, c);
    var s1 := IndexScan(Board(DefaultTitle, [], [prog], [done]), false, Unlines(SettingsLines(l0, ws, ws2, done, prog)));
    assert CreatedLines(name, l0, ws, ws2, done, prog, a, b, c) == h + t;
    assert [] + [prog] == [prog] && [] + [done] == [done];
    ScanIndexAppend(InitialScan, h, t, files);
    ScanSettingsBlock(InitialScan, l0, ws, ws2, done, prog, files);
    assert ScanIndex(InitialScan, h, files) == s1;
    ScanCreatedBody(s1, name, a, b, c, files);
  }

  /** From the default title, a blank line and `# <name>` give the title `DefaultBoardTitle(name)`. */
  lemma {:induction false} HeadingLineAfter(st: IndexScan, name: string, files: Files)
    requires !st.inFrontmatter && st.board.title == DefaultTitle && '\n' !in name
    ensures ScanIndex(st, ["", "# " + name], files) == st.(board := st.board.(title := DefaultBoardTitle(name)))
  {
    var after := ScanIndex(st, ["# " + name], files);
    BlankBefore(st, "# " + name, files);
    TitleLineStep(st, name, files);
    if TrimEnd(name) == [] {
      assert after == st;
      assert st.(board := st.board.(title := DefaultTitle)) == st;
    } else {
      assert after == st.(board := st.board.(title := TrimEnd(name)));
    }
  }

  /** The default index's lines are the created layout with createBoard's own names and values. */
  lemma {:induction false} DefaultLinesShape(name: string)
    requires '\n' !in name
    ensures DefaultIndexLines(name) + [""]
            == CreatedLines(name, "settings:", "  ", "    ", "Done", "In Progress", "Backlog", "In Progress", "Done")
  {
    var ls := DefaultIndexLines(name);
    var cl := CreatedLines(name, "settings:", "  ", "    ", "Done", "In Progress", "Backlog", "In Progress", "Done");
    assert cl == ["---", "settings:", "  " + "completedColumns:", "    " + ("- " + "Done"),
                  "  " + "startedColumns:", "    " + ("- " + "In Progress"), "---",
                  "", "# " + name, "", "## " + "Backlog", "", "## " + "In Progress", "", "## " + "Done", ""];
    DefaultSettingsText();
    DefaultHeadingsText();
  }

  lemma {:induction false} DefaultSettingsText()
    ensures "  " + "completedColumns:" == "  completedColumns:" && "    " + ("- " + "Done") == "    - Done"
    ensures "  " + "startedColumns:" == "  startedColumns:" && "    " + ("- " + "In Progress") == "    - In Progress"
  {
  }

  lemma {:induction false} DefaultHeadingsText()
    ensures "## " + "Backlog" == "## Backlog" && "## " + "In Progress" == "## In Progress" && "## " + "Done" == "## Done"
  {
  }

  /** No line of the default index holds a line break when the name does not. */
  lemma {:induction false} DefaultLinesNoBreaks(name: string)
    requires '\n' !in name
    ensures forall i :: 0 <= i < |DefaultIndexLines(name)| ==> '\n' !in DefaultIndexLines(name)[i]
  {
    var ls := DefaultIndexLines(name);
    forall i | 0 <= i < |ls| ensures '\n' !in ls[i] {
      if i == 8 {
        assert ls[i] == "# " + name;
      }
    }
  }

  /**
   * The index createBoard writes for a one-line board name reads back as a board titled with
   * the name, with the columns Backlog, In Progress and Done, In Progress started and Done
   * completed, and no tasks.
   */
  lemma {:induction false} ParseDefaultIndex(name: string, files: Files)
    requires '\n' !in name
    ensures ParseIndexSpec(DefaultIndexText(name), files)
            == Board(DefaultBoardTitle(name), [Column("Backlog", []), Column("In Progress", []), Column("Done", [])],
                     ["In Progress"], ["Done"])
  {
    assert OtherLine("settings:");
    assert AllSpace("  ") && AllSpace("    ") && '\n' !in "  " && '\n' !in "    ";
    assert PlainValue("Done") && PlainValue("In Progress");
    assert HeadingText("Backlog") && HeadingText("In Progress") && HeadingText("Done");
    ScanCreated(name, "settings:", "  ", "    ", "Done", "In Progress", "Backlog", "In Progress", "Done", files);
    DefaultLinesShape(name);
    DefaultLinesNoBreaks(name);
    SplitUnlines(DefaultIndexLines(name));
  }
}
