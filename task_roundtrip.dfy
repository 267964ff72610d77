/**
 * What `getTask` reads back from the file `updateTask` writes: the body parse inverts the
 * body builder for every task whose fields fit on their lines, and the front-matter split
 * inverts the `---` framing whenever the dumped metadata holds no fence line.
 */
module TaskRoundTrip {
  import opened Wrappers
  import opened Text
  import opened Links
  import opened TaskFormat

  // ---------------------------------------------------------------------------------------
  // Which task bodies survive the round trip

  /** A field written on one line and read back through `trim`: not empty, no line break. */
  predicate Word(s: string) {
    s != [] && Trimmed(s) && '\n' !in s
  }

  /** An unticked sub-task must not spell a ticked box anywhere in its text. */
  predicate SubTaskRenderable(s: SubTask) {
    Word(s.description) && (s.completed || (!Contains(s.description, "[x]") && !Contains(s.description, "[X]")))
  }

  /** The relation line must read back through the link pattern and the `.md` removal. */
  predicate RelationRenderable(r: Relation) {
    Trimmed(r.name) && LinkTextSafe(r.name) && Trimmed(r.target) && LinkTargetSafe(r.target) && !Contains(r.target, ".md")
  }

  /** A comment's text line must not look like the start of the next comment or a date. */
  predicate CommentRenderable(c: Comment) {
    Word(c.author) && Word(c.date) && Word(c.text) && !StartsWith(c.text, "- author:") && !StartsWith(c.text, "date:")
  }

  /** A description line is kept, as it is, only when it is not blank and opens no section. */
  predicate DescriptionLine(l: string) {
    Trim(l) != [] && !StartsWith(l, "## ")
  }

  /** The description is trimmed and each of its lines is a description line, or there is none. */
  predicate DescriptionRenderable(d: string) {
    d == [] || (Trimmed(d) && forall i :: 0 <= i < |SplitLines(d)| ==> DescriptionLine(SplitLines(d)[i]))
  }

  predicate Renderable(b: TaskBody) {
    && Word(b.title)
    && DescriptionRenderable(b.description)
    && (forall i :: 0 <= i < |b.subTasks| ==> SubTaskRenderable(b.subTasks[i]))
    && (forall i :: 0 <= i < |b.relations| ==> RelationRenderable(b.relations[i]))
    && (forall i :: 0 <= i < |b.comments| ==> CommentRenderable(b.comments[i]))
  }

  // ---------------------------------------------------------------------------------------
  // Where a line goes

  /** Once the title is read, a line that is not a heading is read by the section it is in. */
  lemma {:induction false} TitledLine(st: BodyScan, line: string)
    requires st.title != [] && !StartsWith(line, "## ")
    ensures BodyStep(st, line) == SectionStep(st, line)
  {
  }

  lemma {:induction false} InSubTasks(st: BodyScan, line: string)
    requires st.section == SubTasksSection && StartsWith(Trim(line), "- [")
    ensures SectionStep(st, line) == SubTaskStep(st, line)
  {
  }

  lemma {:induction false} InRelations(st: BodyScan, line: string)
    requires st.section == RelationsSection && StartsWith(Trim(line), "- [")
    ensures SectionStep(st, line) == RelationStep(st, line)
  {
  }

  lemma {:induction false} InComments(st: BodyScan, line: string)
    requires st.section == CommentsSection
    ensures SectionStep(st, line) == CommentStep(st, line)
  {
  }

  lemma {:induction false} BlankComment(st: BodyScan)
    ensures CommentStep(st, "") == st
  {
    assert Trim("") == "";
  }

  lemma {:induction false} BlankSection(st: BodyScan)
    ensures SectionStep(st, "") == st
  {
    assert Trim("") == "" && !StartsWith("", "- [");
    BlankComment(st);
  }

  /** A blank line changes nothing, in every section. */
  lemma {:induction false} BlankStep(st: BodyScan)
    ensures BodyStep(st, "") == st
  {
    assert !StartsWith("", "# ") && !StartsWith("", "## ");
    BlankSection(st);
  }

  // ---------------------------------------------------------------------------------------
  // One line at a time

  /** The title line of an untitled scan sets the title and opens the description. */
  lemma {:induction false} TitleStep(st: BodyScan, t: string)
    requires st.title == [] && Word(t)
    ensures BodyStep(st, "# " + t) == st.(title := t, section := Description)
  {
    assert ("# " + t)[..2] == "# " && ("# " + t)[2..] == t;
    TrimOfTrimmed(t);
  }

  /** A `## ` line selects the section its name gives, whatever came before. */
  lemma {:induction false} HeadingStep(st: BodyScan, h: string)
    ensures BodyStep(st, "## " + h) == st.(section := SectionOf(h))
  {
    var line := "## " + h;
    assert line[..3] == "## " && line[3..] == h;
    assert line[1] == '#';
    assert !StartsWith(line, "# ");
  }

  /** A description line of a titled scan is kept as it is. */
  lemma {:induction false} DescriptionStep(st: BodyScan, d: string)
    requires st.title != [] && st.section == Description && DescriptionLine(d)
    ensures BodyStep(st, d) == st.(descriptionLines := st.descriptionLines + [d])
  {
    TitledLine(st, d);
  }

  lemma {:induction false} TrimStartOfStart(s: string)
    requires s != [] && !IsSpace(s[0])
    ensures TrimStart(s) == s
  {
  }

  /** A `- [ ] ` prefix holds no ticked box, so the line holds one only if its text does. */
  lemma {:induction false} UntickedLine(d: string, p: string)
    requires p == "[x]" || p == "[X]"
    requires !Contains(d, p)
    ensures !Contains("- [ ] " + d, p)
  {
    var line := "- [ ] " + d;
    ContainsIff(line, p);
    ContainsIff(d, p);
    forall j: nat ensures !OccursAt(line, p, j) {
      if j < 6 {
        if j + 3 <= |line| {
          var w := line[j..j + 3];
          assert w[0] == line[j] && w[1] == line[j + 1];
          assert line[j] != '[' || line[j + 1] == ' ';
        }
      } else {
        OccursAtShift("- [ ] ", d, p, j - 6);
      }
    }
  }

  lemma {:induction false} TickedLine(d: string, p: string)
    requires p == "[x]"
    ensures Contains("- [x] " + d, p)
  {
    ContainsIff("- [x] " + d, p);
    assert OccursAt("- [x] " + d, p, 2);
  }

  /** The check box and the space after it come off, leaving the text. */
  lemma {:induction false} CheckboxStripped(s: SubTask)
    requires Word(s.description)
    ensures Trim(StripCheckbox(SubTaskLine(s))) == s.description
  {
    var d := s.description;
    var line := SubTaskLine(s);
    assert line == "- " + Checkbox(s.completed) + " " + d;
    assert line[..3] == "- [" && line[4] == ']';
    assert line[3] == 'x' || line[3] == ' ';
    assert line[5..] == " " + d;
    TrimStartSkips(" ", d);
    TrimStartOfStart(d);
    TrimOfTrimmed(d);
  }

  lemma {:induction false} SubTaskLineShape(s: SubTask)
    ensures SubTaskLine(s) == (if s.completed then "- [x] " else "- [ ] ") + s.description
  {
  }

  /** The line holds a ticked box exactly when the sub-task is completed. */
  lemma {:induction false} SubTaskTick(s: SubTask)
    requires SubTaskRenderable(s)
    ensures (Contains(SubTaskLine(s), "[x]") || Contains(SubTaskLine(s), "[X]")) == s.completed
  {
    SubTaskLineShape(s);
    if s.completed {
      TickedLine(s.description, "[x]");
    } else {
      UntickedLine(s.description, "[x]");
      UntickedLine(s.description, "[X]");
    }
  }

  /** The text after the check box, and whether the line is ticked. */
  lemma {:induction false} SubTaskOfLine(s: SubTask)
    requires SubTaskRenderable(s)
    ensures SubTaskOf(SubTaskLine(s)) == s
  {
    CheckboxStripped(s);
    SubTaskTick(s);
  }

  /** A sub-task line in the sub-tasks section appends its sub-task. */
  lemma {:induction false} SubTaskStep1(st: BodyScan, s: SubTask)
    requires st.title != [] && st.section == SubTasksSection && SubTaskRenderable(s)
    ensures BodyStep(st, SubTaskLine(s)) == st.(subTasks := st.subTasks + [s])
  {
    var line := SubTaskLine(s);
    assert line == "- " + Checkbox(s.completed) + " " + s.description;
    assert line[0] == '-' && line[..3] == "- [";
    assert line[|line| - 1] == s.description[|s.description| - 1];
    TrimOfTrimmed(line);
    TitledLine(st, line);
    InSubTasks(st, line);
    SubTaskOfLine(s);
  }

  /** In `t + ".md"` the first `.md` is the one written after `t`. */
  lemma {:induction false} ExtensionRemoved(t: string)
    requires !Contains(t, ".md")
    ensures ReplaceFirst(t + ".md", ".md", "") == t
  {
    var s := t + ".md";
    ContainsIff(t, ".md");
    forall j | 0 <= j < |t| ensures !OccursAt(s, ".md", j) {
      if j + 3 <= |t| {
        assert s[j..j + 3] == t[j..j + 3];
        assert !OccursAt(t, ".md", j);
      } else if j + 2 == |t| {
        assert s[j..j + 3][2] == s[j + 2] == '.';
      } else {
        assert s[j..j + 3][1] == s[j + 1] == '.';
      }
    }
    assert OccursAt(s, ".md", |t|);
    ReplaceFirstAt(s, ".md", |t|);
    assert s[..|t|] + s[|t| + 3..] == t;
  }

  lemma {:induction false} TargetWithExtension(t: string)
    requires LinkTargetSafe(t)
    ensures LinkTargetSafe(t + ".md")
  {
    var g := t + ".md";
    forall i | 0 <= i < |g| ensures !IsLineTerminator(g[i]) {
      if i < |t| { assert g[i] == t[i]; }
    }
    assert g == t + ['.', 'm', 'd'];
  }

  /** The relation a written relation line reads back as. */
  lemma {:induction false} RelationOfLine(r: Relation)
    requires RelationRenderable(r)
    ensures MatchLink(RelationLine(r)) == Some(Link(r.name, r.target + ".md"))
    ensures RelationOf(Link(r.name, r.target + ".md")) == r
  {
    TargetWithExtension(r.target);
    assert RelationLine(r) == "- [" + r.name + "](" + (r.target + ".md") + ")" + "";
    MatchWrittenLink(r.name, r.target + ".md", "");
    TrimOfTrimmed(r.name);
    ExtensionRemoved(r.target);
    TrimOfTrimmed(r.target);
  }

  /** A relation line in the relations section appends its relation. */
  lemma {:induction false} RelationStep1(st: BodyScan, r: Relation)
    requires st.title != [] && st.section == RelationsSection && RelationRenderable(r)
    ensures BodyStep(st, RelationLine(r)) == st.(relations := st.relations + [r])
  {
    var line := RelationLine(r);
    assert line[0] == '-' && line[..3] == "- [" && line[|line| - 1] == ')';
    TrimOfTrimmed(line);
    TitledLine(st, line);
    InRelations(st, line);
    RelationOfLine(r);
  }

  lemma {:induction false} AuthorComment(st: BodyScan, a: string)
    requires Word(a)
    ensures CommentStep(st, "- author: " + a)
            == st.(comments := Flush(st.comments, st.current), current := Some(Comment(a, "", "")))
  {
    var line := "- author: " + a;
    assert line[0] == '-' && line[|line| - 1] == a[|a| - 1];
    TrimOfTrimmed(line);
    assert line[..9] == "- author:";
    ReplaceFirstAt(line, "- author:", 0);
    assert line[..0] + line[9..] == " " + a;
    TrimIndented(" ", a);
  }

  /** An author line closes the open comment and opens one with that author. */
  lemma {:induction false} AuthorStep(st: BodyScan, a: string)
    requires st.title != [] && st.section == CommentsSection && Word(a)
    ensures BodyStep(st, "- author: " + a)
            == st.(comments := Flush(st.comments, st.current), current := Some(Comment(a, "", "")))
  {
    var line := "- author: " + a;
    assert line[0] == '-';
    TitledLine(st, line);
    InComments(st, line);
    AuthorComment(st, a);
  }

  /** The indented date line trims to `date: <d>`. */
  lemma {:induction false} DateLineTrim(d: string)
    requires Word(d)
    ensures Trim("  date: " + d) == "date: " + d
    ensures StartsWith("date: " + d, "date:") && !StartsWith("date: " + d, "- author:")
  {
    var t := "date: " + d;
    assert "  date: " + d == "  " + t && t[0] == 'd' && t[|t| - 1] == d[|d| - 1];
    TrimIndented("  ", t);
    assert t[..5] == "date:";
    assert |t| < 9 || t[..9][0] == 'd';
  }

  /** Removing the first `date:` leaves the date behind white space. */
  lemma {:induction false} DateLineValue(d: string)
    requires Word(d)
    ensures Trim(ReplaceFirst("  date: " + d, "date:", "")) == d
  {
    var line := "  date: " + d;
    assert line[2..7] == "date:" && line[0] == ' ' && line[1] == ' ';
    forall j | 0 <= j < 2 ensures !OccursAt(line, "date:", j) {
      assert line[j..j + 5][0] == ' ';
    }
    ReplaceFirstAt(line, "date:", 2);
    var a, b := line[..2], line[7..];
    assert b == b[..1] + d;
    StringAssoc(a, b[..1], d);
    assert AllSpace(a + b[..1]) by {
      assert a + b[..1] == [line[0], line[1], line[7]];
    }
    TrimIndented(a + b[..1], d);
  }

  lemma {:induction false} DateComment(st: BodyScan, d: string)
    requires st.current.Some? && Word(d)
    ensures CommentStep(st, "  date: " + d) == st.(current := Some(st.current.value.(date := d)))
  {
    DateLineTrim(d);
    DateLineValue(d);
  }

  /** The indented date line of an open comment sets its date. */
  lemma {:induction false} DateStep(st: BodyScan, d: string)
    requires st.title != [] && st.section == CommentsSection && st.current.Some? && Word(d)
    ensures BodyStep(st, "  date: " + d) == st.(current := Some(st.current.value.(date := d)))
  {
    var line := "  date: " + d;
    assert line[0] == ' ';
    TitledLine(st, line);
    InComments(st, line);
    DateComment(st, d);
  }

  lemma {:induction false} TextComment(st: BodyScan, c: Comment)
    requires CommentRenderable(c)
    requires st.current == Some(Comment(c.author, c.date, ""))
    ensures CommentStep(st, "  " + c.text) == st.(current := Some(c))
  {
    TrimIndented("  ", c.text);
  }

  /** The indented text line of a dated comment sets its text. */
  lemma {:induction false} CommentTextStep(st: BodyScan, c: Comment)
    requires st.title != [] && st.section == CommentsSection && CommentRenderable(c)
    requires st.current == Some(Comment(c.author, c.date, ""))
    ensures BodyStep(st, "  " + c.text) == st.(current := Some(c))
  {
    var line := "  " + c.text;
    assert line[0] == ' ';
    TitledLine(st, line);
    InComments(st, line);
    TextComment(st, c);
  }

  lemma {:induction false} SubTasksNamed()
    ensures SectionOf("Sub-tasks") == SubTasksSection
  {
    TrimOfTrimmed("Sub-tasks");
    assert Lower("Sub-tasks") == "sub-tasks";
  }

  lemma {:induction false} SubTasksLine()
    ensures "## " + "Sub-tasks" == "## Sub-tasks"
  {
  }

  lemma {:induction false} SubTasksHead(st: BodyScan)
    ensures BodyStep(st, "## Sub-tasks") == st.(section := SubTasksSection)
  {
    SubTasksNamed();
    SubTasksLine();
    HeadingStep(st, "Sub-tasks");
  }

  lemma {:induction false} RelationsNamed()
    ensures SectionOf("Relations") == RelationsSection
  {
    TrimOfTrimmed("Relations");
    assert Lower("Relations") == "relations";
  }

  lemma {:induction false} RelationsLine()
    ensures "## " + "Relations" == "## Relations"
  {
  }

  lemma {:induction false} RelationsHead(st: BodyScan)
    ensures BodyStep(st, "## Relations") == st.(section := RelationsSection)
  {
    RelationsNamed();
    RelationsLine();
    HeadingStep(st, "Relations");
  }

  lemma {:induction false} CommentsNamed()
    ensures SectionOf("Comments") == CommentsSection
  {
    TrimOfTrimmed("Comments");
    assert Lower("Comments") == "comments";
  }

  lemma {:induction false} CommentsLine()
    ensures "## " + "Comments" == "## Comments"
  {
  }

  lemma {:induction false} CommentsHead(st: BodyScan)
    ensures BodyStep(st, "## Comments") == st.(section := CommentsSection)
  {
    CommentsNamed();
    CommentsLine();
    HeadingStep(st, "Comments");
  }

  // ---------------------------------------------------------------------------------------
  // One block at a time
  //
  // The block scans are stated for any line step that reads the written lines the way
  // `BodyStep` does; `BodyStepReads` shows that `BodyStep` is such a step.

  /** A blank line changes nothing. */
  ghost predicate BlankKept(step: (BodyScan, string) -> BodyScan) {
    forall st: BodyScan {:trigger step(st, "")} :: step(st, "") == st
  }

  /** The `# ` line of an untitled scan sets the title and opens the description. */
  ghost predicate TitleRead(step: (BodyScan, string) -> BodyScan) {
    forall st: BodyScan, t: string {:trigger step(st, "# " + t)} ::
      st.title == [] && Word(t) ==> step(st, "# " + t) == st.(title := t, section := Description)
  }

  /** A description line of a titled scan is kept. */
  ghost predicate DescriptionRead(step: (BodyScan, string) -> BodyScan) {
    forall st: BodyScan, d: string {:trigger step(st, d)} ::
      st.title != [] && st.section == Description && DescriptionLine(d)
      ==> step(st, d) == st.(descriptionLines := st.descriptionLines + [d])
  }

  /** The three headings the writer emits select their sections. */
  ghost predicate HeadingsRead(step: (BodyScan, string) -> BodyScan) {
    && (forall st: BodyScan {:trigger step(st, "## Sub-tasks")} :: step(st, "## Sub-tasks") == st.(section := SubTasksSection))
    && (forall st: BodyScan {:trigger step(st, "## Relations")} :: step(st, "## Relations") == st.(section := RelationsSection))
    && (forall st: BodyScan {:trigger step(st, "## Comments")} :: step(st, "## Comments") == st.(section := CommentsSection))
  }

  /** A sub-task line in the sub-tasks section appends its sub-task. */
  ghost predicate SubTaskRead(step: (BodyScan, string) -> BodyScan) {
    forall st: BodyScan, s: SubTask {:trigger step(st, SubTaskLine(s))} ::
      st.title != [] && st.section == SubTasksSection && SubTaskRenderable(s)
      ==> step(st, SubTaskLine(s)) == st.(subTasks := st.subTasks + [s])
  }

  /** A relation line in the relations section appends its relation. */
  ghost predicate RelationRead(step: (BodyScan, string) -> BodyScan) {
    forall st: BodyScan, r: Relation {:trigger step(st, RelationLine(r))} ::
      st.title != [] && st.section == RelationsSection && RelationRenderable(r)
      ==> step(st, RelationLine(r)) == st.(relations := st.relations + [r])
  }

  /** The author, date and text lines of a comment, in the comments section. */
  ghost predicate CommentRead(step: (BodyScan, string) -> BodyScan) {
    && (forall st: BodyScan, a: string {:trigger step(st, "- author: " + a)} ::
          st.title != [] && st.section == CommentsSection && Word(a)
          ==> step(st, "- author: " + a)
              == st.(comments := Flush(st.comments, st.current), current := Some(Comment(a, "", ""))))
    && (forall st: BodyScan, d: string {:trigger step(st, "  date: " + d)} ::
          st.title != [] && st.section == CommentsSection && st.current.Some? && Word(d)
          ==> step(st, "  date: " + d) == st.(current := Some(st.current.value.(date := d))))
    && (forall st: BodyScan, c: Comment {:trigger step(st, "  " + c.text)} ::
          st.title != [] && st.section == CommentsSection && CommentRenderable(c)
          && st.current == Some(Comment(c.author, c.date, ""))
          ==> step(st, "  " + c.text) == st.(current := Some(c)))
  }

  /** Everything the scan of a written body needs of the step. */
  ghost predicate ReadsWritten(step: (BodyScan, string) -> BodyScan) {
    && BlankKept(step) && TitleRead(step) && DescriptionRead(step) && HeadingsRead(step)
    && SubTaskRead(step) && RelationRead(step) && CommentRead(step)
  }

  lemma {:induction false} BodyBlankKept()
    ensures BlankKept(BodyStep)
  {
    forall st: BodyScan ensures BodyStep(st, "") == st {
      BlankStep(st);
    }
  }

  lemma {:induction false} BodyTitleRead()
    ensures TitleRead(BodyStep)
  {
    forall st: BodyScan, t: string | st.title == [] && Word(t)
      ensures BodyStep(st, "# " + t) == st.(title := t, section := Description)
    {
      TitleStep(st, t);
    }
  }

  lemma {:induction false} BodyDescriptionRead()
    ensures DescriptionRead(BodyStep)
  {
    forall st: BodyScan, d: string | st.title != [] && st.section == Description && DescriptionLine(d)
      ensures BodyStep(st, d) == st.(descriptionLines := st.descriptionLines + [d])
    {
      DescriptionStep(st, d);
    }
  }

  lemma {:induction false} BodyHeadingsRead()
    ensures HeadingsRead(BodyStep)
  {
    forall st: BodyScan ensures BodyStep(st, "## Sub-tasks") == st.(section := SubTasksSection) {
      SubTasksHead(st);
    }
    forall st: BodyScan ensures BodyStep(st, "## Relations") == st.(section := RelationsSection) {
      RelationsHead(st);
    }
    forall st: BodyScan ensures BodyStep(st, "## Comments") == st.(section := CommentsSection) {
      CommentsHead(st);
    }
  }

  lemma {:induction false} BodySubTaskRead()
    ensures SubTaskRead(BodyStep)
  {
    forall st: BodyScan, s: SubTask | st.title != [] && st.section == SubTasksSection && SubTaskRenderable(s)
      ensures BodyStep(st, SubTaskLine(s)) == st.(subTasks := st.subTasks + [s])
    {
      SubTaskStep1(st, s);
    }
  }

  lemma {:induction false} BodyRelationRead()
    ensures RelationRead(BodyStep)
  {
    forall st: BodyScan, r: Relation | st.title != [] && st.section == RelationsSection && RelationRenderable(r)
      ensures BodyStep(st, RelationLine(r)) == st.(relations := st.relations + [r])
    {
      RelationStep1(st, r);
    }
  }

  lemma {:induction false} BodyCommentRead()
    ensures CommentRead(BodyStep)
  {
    forall st: BodyScan, a: string | st.title != [] && st.section == CommentsSection && Word(a)
      ensures BodyStep(st, "- author: " + a)
              == st.(comments := Flush(st.comments, st.current), current := Some(Comment(a, "", "")))
    {
      AuthorStep(st, a);
    }
    forall st: BodyScan, d: string | st.title != [] && st.section == CommentsSection && st.current.Some? && Word(d)
      ensures BodyStep(st, "  date: " + d) == st.(current := Some(st.current.value.(date := d)))
    {
      DateStep(st, d);
    }
    forall st: BodyScan, c: Comment | st.title != [] && st.section == CommentsSection && CommentRenderable(c)
                                       && st.current == Some(Comment(c.author, c.date, ""))
      ensures BodyStep(st, "  " + c.text) == st.(current := Some(c))
    {
      CommentTextStep(st, c);
    }
  }

  /** `BodyStep` reads the written lines as the block scans below expect. */
  lemma {:induction false} BodyStepReads()
    ensures ReadsWritten(BodyStep)
  {
    BodyBlankKept();
    BodyTitleRead();
    BodyDescriptionRead();
    BodyHeadingsRead();
    BodySubTaskRead();
    BodyRelationRead();
    BodyCommentRead();
  }

  lemma {:induction false} SubTaskLinesScan(step: (BodyScan, string) -> BodyScan, st: BodyScan, ss: seq<SubTask>)
    requires SubTaskRead(step)
    requires st.title != [] && st.section == SubTasksSection
    requires forall i :: 0 <= i < |ss| ==> SubTaskRenderable(ss[i])
    ensures Scan(step, st, SubTaskLines(ss)) == st.(subTasks := st.subTasks + ss)
    decreases |ss|
  {
    if ss == [] {
      assert st.subTasks + ss == st.subTasks;
    } else {
      var init, s := ss[..|ss| - 1], ss[|ss| - 1];
      SubTaskLinesScan(step, st, init);
      var mid := st.(subTasks := st.subTasks + init);
      ScanAppend(step, st, SubTaskLines(init), [SubTaskLine(s)]);
      ScanOne(step, mid, SubTaskLine(s));
      assert st.subTasks + init + [s] == st.subTasks + ss;
    }
  }

  lemma {:induction false} RelationLinesScan(step: (BodyScan, string) -> BodyScan, st: BodyScan, rs: seq<Relation>)
    requires RelationRead(step)
    requires st.title != [] && st.section == RelationsSection
    requires forall i :: 0 <= i < |rs| ==> RelationRenderable(rs[i])
    ensures Scan(step, st, RelationLines(rs)) == st.(relations := st.relations + rs)
    decreases |rs|
  {
    if rs == [] {
      assert st.relations + rs == st.relations;
    } else {
      var init, r := rs[..|rs| - 1], rs[|rs| - 1];
      RelationLinesScan(step, st, init);
      var mid := st.(relations := st.relations + init);
      ScanAppend(step, st, RelationLines(init), [RelationLine(r)]);
      ScanOne(step, mid, RelationLine(r));
      assert st.relations + init + [r] == st.relations + rs;
    }
  }

  /** Four lines give one comment, still open at the end. */
  lemma {:induction false} CommentScan(step: (BodyScan, string) -> BodyScan, st: BodyScan, c: Comment)
    requires CommentRead(step) && BlankKept(step)
    requires st.title != [] && st.section == CommentsSection && CommentRenderable(c)
    ensures Scan(step, st, CommentLines(c)) == st.(comments := Flush(st.comments, st.current), current := Some(c))
  {
    var a, d, t := "- author: " + c.author, "  date: " + c.date, "  " + c.text;
    assert CommentLines(c) == [a] + [d] + [t] + [""];
    var s1 := st.(comments := Flush(st.comments, st.current), current := Some(Comment(c.author, "", "")));
    var s2 := s1.(current := Some(Comment(c.author, c.date, "")));
    var s3 := s1.(current := Some(c));
    ScanAppend(step, st, [a] + [d] + [t], [""]);
    ScanAppend(step, st, [a] + [d], [t]);
    ScanAppend(step, st, [a], [d]);
    ScanOne(step, st, a);
    ScanOne(step, s1, d);
    ScanOne(step, s2, t);
    ScanOne(step, s3, "");
  }

  /** The scan apart from its comments. */
  function NoComments(st: BodyScan): BodyScan {
    st.(comments := [], current := None)
  }

  /** The comment still open, if any, is one that the final flush keeps. */
  predicate OpenKept(st: BodyScan) {
    st.current.None? || st.current.value.author != []
  }

  lemma {:induction false} CommentLinesScan(step: (BodyScan, string) -> BodyScan, st: BodyScan, cs: seq<Comment>)
    requires CommentRead(step) && BlankKept(step)
    requires st.title != [] && st.section == CommentsSection && OpenKept(st)
    requires forall i :: 0 <= i < |cs| ==> CommentRenderable(cs[i])
    ensures NoComments(Scan(step, st, CommentsLines(cs))) == NoComments(st)
    ensures OpenKept(Scan(step, st, CommentsLines(cs)))
    ensures var r := Scan(step, st, CommentsLines(cs)); Flush(r.comments, r.current) == Flush(st.comments, st.current) + cs
    decreases |cs|
  {
    if cs == [] {
      assert Flush(st.comments, st.current) + cs == Flush(st.comments, st.current);
    } else {
      var init, c := cs[..|cs| - 1], cs[|cs| - 1];
      CommentLinesScan(step, st, init);
      var mid := Scan(step, st, CommentsLines(init));
      ScanAppend(step, st, CommentsLines(init), CommentLines(c));
      assert CommentRenderable(c);
      CommentScan(step, mid, c);
      assert CommentsLines(cs) == CommentsLines(init) + CommentLines(c);
      var r := Scan(step, mid, CommentLines(c));
      assert r == mid.(comments := Flush(mid.comments, mid.current), current := Some(c));
      assert Flush(r.comments, r.current) == Flush(mid.comments, mid.current) + [c];
      assert cs == init + [c];
      var f := Flush(st.comments, st.current);
      assert f + init + [c] == f + (init + [c]);
    }
  }

  lemma {:induction false} HeadScan(step: (BodyScan, string) -> BodyScan, t: string)
    requires TitleRead(step) && BlankKept(step)
    requires Word(t)
    ensures Scan(step, InitialBodyScan, ["# " + t, ""]) == InitialBodyScan.(title := t, section := Description)
  {
    var s1 := InitialBodyScan.(title := t, section := Description);
    assert ["# " + t, ""] == ["# " + t] + [""];
    ScanAppend(step, InitialBodyScan, ["# " + t], [""]);
    ScanOne(step, InitialBodyScan, "# " + t);
    ScanOne(step, s1, "");
  }

  /** Description lines are collected one after the other. */
  lemma {:induction false} DescriptionLinesScan(step: (BodyScan, string) -> BodyScan, st: BodyScan, ls: seq<string>)
    requires DescriptionRead(step)
    requires st.title != [] && st.section == Description
    requires forall i :: 0 <= i < |ls| ==> DescriptionLine(ls[i])
    ensures Scan(step, st, ls) == st.(descriptionLines := st.descriptionLines + ls)
    decreases |ls|
  {
    if ls == [] {
      assert st.descriptionLines + ls == st.descriptionLines;
    } else {
      var init, l := ls[..|ls| - 1], ls[|ls| - 1];
      DescriptionLinesScan(step, st, init);
      var mid := st.(descriptionLines := st.descriptionLines + init);
      assert ls == init + [l];
      ScanAppend(step, st, init, [l]);
      ScanOne(step, mid, l);
      assert st.descriptionLines + init + [l] == st.descriptionLines + ls;
    }
  }

  lemma {:induction false} DescriptionScan(step: (BodyScan, string) -> BodyScan, st: BodyScan, d: string)
    requires DescriptionRead(step) && BlankKept(step)
    requires st.title != [] && st.section == Description && DescriptionRenderable(d)
    ensures Scan(step, st, DescriptionBlock(d))
            == if d == [] then st else st.(descriptionLines := st.descriptionLines + SplitLines(d))
  {
    if d != [] {
      var s1 := st.(descriptionLines := st.descriptionLines + SplitLines(d));
      DescriptionLinesScan(step, st, SplitLines(d));
      ScanAppend(step, st, SplitLines(d), [""]);
      ScanOne(step, s1, "");
    }
  }

  /** A heading line and the blank line after it: only the section changes. */
  lemma {:induction false} HeadingScan(step: (BodyScan, string) -> BodyScan, st: BodyScan, line: string, sec: Section, lines: seq<string>)
    requires BlankKept(step)
    requires step(st, line) == st.(section := sec) && lines == [line, ""]
    ensures Scan(step, st, lines) == st.(section := sec)
  {
    ScanAppend(step, st, [line], [""]);
    assert lines == [line] + [""];
    ScanOne(step, st, line);
    ScanOne(step, st.(section := sec), "");
  }

  lemma {:induction false} SubTasksScan(step: (BodyScan, string) -> BodyScan, st: BodyScan, ss: seq<SubTask>)
    requires HeadingsRead(step) && SubTaskRead(step) && BlankKept(step)
    requires st.title != [] && |ss| > 0
    requires forall i :: 0 <= i < |ss| ==> SubTaskRenderable(ss[i])
    ensures Scan(step, st, SubTasksBlock(ss)) == st.(section := SubTasksSection, subTasks := st.subTasks + ss)
  {
    var h := ["## Sub-tasks", ""];
    HeadingScan(step, st, "## Sub-tasks", SubTasksSection, h);
    var s1 := st.(section := SubTasksSection);
    SubTaskLinesScan(step, s1, ss);
    var s2 := s1.(subTasks := st.subTasks + ss);
    ScanOne(step, s2, "");
    ScanAppend(step, st, h, SubTaskLines(ss));
    ScanAppend(step, st, h + SubTaskLines(ss), [""]);
  }

  lemma {:induction false} RelationsScan(step: (BodyScan, string) -> BodyScan, st: BodyScan, rs: seq<Relation>)
    requires HeadingsRead(step) && RelationRead(step) && BlankKept(step)
    requires st.title != [] && |rs| > 0
    requires forall i :: 0 <= i < |rs| ==> RelationRenderable(rs[i])
    ensures Scan(step, st, RelationsBlock(rs)) == st.(section := RelationsSection, relations := st.relations + rs)
  {
    var h := ["## Relations", ""];
    HeadingScan(step, st, "## Relations", RelationsSection, h);
    var s1 := st.(section := RelationsSection);
    RelationLinesScan(step, s1, rs);
    var s2 := s1.(relations := st.relations + rs);
    ScanOne(step, s2, "");
    ScanAppend(step, st, h, RelationLines(rs));
    ScanAppend(step, st, h + RelationLines(rs), [""]);
  }

  lemma {:induction false} CommentsScan(step: (BodyScan, string) -> BodyScan, st: BodyScan, cs: seq<Comment>)
    requires HeadingsRead(step) && CommentRead(step) && BlankKept(step)
    requires st.title != [] && |cs| > 0 && OpenKept(st)
    requires forall i :: 0 <= i < |cs| ==> CommentRenderable(cs[i])
    ensures var r := Scan(step, st, CommentsBlock(cs));
            NoComments(r) == NoComments(st).(section := CommentsSection)
            && Flush(r.comments, r.current) == Flush(st.comments, st.current) + cs
  {
    var h := ["## Comments", ""];
    HeadingScan(step, st, "## Comments", CommentsSection, h);
    var s1 := st.(section := CommentsSection);
    CommentLinesScan(step, s1, cs);
    ScanAppend(step, st, h, CommentsLines(cs));
  }

  // ---------------------------------------------------------------------------------------
  // The whole body

  predicate NoBreaks(ls: seq<string>) {
    forall i :: 0 <= i < |ls| ==> '\n' !in ls[i]
  }

  lemma {:induction false} NoBreaksAppend(a: seq<string>, b: seq<string>)
    requires NoBreaks(a) && NoBreaks(b)
    ensures NoBreaks(a + b)
  {
    forall i | 0 <= i < |a + b| ensures '\n' !in (a + b)[i] {
      if i < |a| { assert (a + b)[i] == a[i]; } else { assert (a + b)[i] == b[i - |a|]; }
    }
  }

  lemma {:induction false} NoLineTerminatorNoBreak(s: string)
    requires NoLineTerminator(s)
    ensures '\n' !in s
  {
    forall i | 0 <= i < |s| ensures s[i] != '\n' {
      assert !IsLineTerminator(s[i]);
    }
  }

  lemma {:induction false} NoBreakJoin(a: string, b: string)
    requires '\n' !in a && '\n' !in b
    ensures '\n' !in a + b
  {
    forall i | 0 <= i < |a + b| ensures (a + b)[i] != '\n' {
      if i < |a| { assert (a + b)[i] == a[i]; } else { assert (a + b)[i] == b[i - |a|]; }
    }
  }

  lemma {:induction false} SubTaskLineNoBreak(s: SubTask)
    requires SubTaskRenderable(s)
    ensures '\n' !in SubTaskLine(s)
  {
    var p := "- " + Checkbox(s.completed) + " ";
    assert p == "- [x] " || p == "- [ ] ";
    assert SubTaskLine(s) == p + s.description;
    NoBreakJoin(p, s.description);
  }

  lemma {:induction false} RelationLineNoBreak(r: Relation)
    requires RelationRenderable(r)
    ensures '\n' !in RelationLine(r)
  {
    NoLineTerminatorNoBreak(r.name);
    NoLineTerminatorNoBreak(r.target);
    NoBreakJoin("- [", r.name);
    NoBreakJoin("- [" + r.name, "](");
    NoBreakJoin("- [" + r.name + "](", r.target);
    NoBreakJoin("- [" + r.name + "](" + r.target, ".md)");
  }

  lemma {:induction false} CommentLinesNoBreak(c: Comment)
    requires CommentRenderable(c)
    ensures NoBreaks(CommentLines(c))
  {
    NoBreakJoin("- author: ", c.author);
    NoBreakJoin("  date: ", c.date);
    NoBreakJoin("  ", c.text);
  }

  lemma {:induction false} SubTaskLinesNoBreaks(ss: seq<SubTask>)
    requires forall i :: 0 <= i < |ss| ==> SubTaskRenderable(ss[i])
    ensures NoBreaks(SubTaskLines(ss))
    decreases |ss|
  {
    if ss != [] {
      var init, s := ss[..|ss| - 1], ss[|ss| - 1];
      SubTaskLinesNoBreaks(init);
      SubTaskLineNoBreak(s);
      NoBreaksAppend(SubTaskLines(init), [SubTaskLine(s)]);
      assert SubTaskLines(ss) == SubTaskLines(init) + [SubTaskLine(s)];
    }
  }

  lemma {:induction false} RelationLinesNoBreaks(rs: seq<Relation>)
    requires forall i :: 0 <= i < |rs| ==> RelationRenderable(rs[i])
    ensures NoBreaks(RelationLines(rs))
    decreases |rs|
  {
    if rs != [] {
      var init, r := rs[..|rs| - 1], rs[|rs| - 1];
      RelationLinesNoBreaks(init);
      RelationLineNoBreak(r);
      NoBreaksAppend(RelationLines(init), [RelationLine(r)]);
      assert RelationLines(rs) == RelationLines(init) + [RelationLine(r)];
    }
  }

  lemma {:induction false} CommentsLinesNoBreaks(cs: seq<Comment>)
    requires forall i :: 0 <= i < |cs| ==> CommentRenderable(cs[i])
    ensures NoBreaks(CommentsLines(cs))
    decreases |cs|
  {
    if cs != [] {
      var init, c := cs[..|cs| - 1], cs[|cs| - 1];
      CommentsLinesNoBreaks(init);
      CommentLinesNoBreak(c);
      NoBreaksAppend(CommentsLines(init), CommentLines(c));
      assert CommentsLines(cs) == CommentsLines(init) + CommentLines(c);
    }
  }

  /** A heading, its blank line, the lines under it, and an optional closing blank line. */
  lemma {:induction false} SectionNoBreaks(h: string, ls: seq<string>, tail: seq<string>)
    requires '\n' !in h && NoBreaks(ls) && (tail == [] || tail == [""])
    ensures NoBreaks([h, ""] + ls + tail)
  {
    NoBreaksAppend([h, ""], ls);
    NoBreaksAppend([h, ""] + ls, tail);
  }

  lemma {:induction false} DescriptionNoBreaks(d: string)
    ensures NoBreaks(DescriptionBlock(d))
  {
    if d != [] {
      NoBreaksAppend(SplitLines(d), [""]);
    }
  }

  lemma {:induction false} SubTasksNoBreaks(ss: seq<SubTask>)
    requires forall i :: 0 <= i < |ss| ==> SubTaskRenderable(ss[i])
    ensures NoBreaks(SubTasksBlock(ss))
  {
    if ss != [] {
      SubTaskLinesNoBreaks(ss);
      SectionNoBreaks("## Sub-tasks", SubTaskLines(ss), [""]);
    }
  }

  lemma {:induction false} RelationsNoBreaks(rs: seq<Relation>)
    requires forall i :: 0 <= i < |rs| ==> RelationRenderable(rs[i])
    ensures NoBreaks(RelationsBlock(rs))
  {
    if rs != [] {
      RelationLinesNoBreaks(rs);
      SectionNoBreaks("## Relations", RelationLines(rs), [""]);
    }
  }

  lemma {:induction false} CommentsNoBreaks(cs: seq<Comment>)
    requires forall i :: 0 <= i < |cs| ==> CommentRenderable(cs[i])
    ensures NoBreaks(CommentsBlock(cs))
  {
    if cs != [] {
      CommentsLinesNoBreaks(cs);
      SectionNoBreaks("## Comments", CommentsLines(cs), []);
      assert ["## Comments", ""] + CommentsLines(cs) + [] == CommentsBlock(cs);
    }
  }

  lemma {:induction false} BodyLinesNoBreaks(b: TaskBody)
    requires Renderable(b)
    ensures NoBreaks(BodyLines(b))
  {
    DescriptionNoBreaks(b.description);
    SubTasksNoBreaks(b.subTasks);
    RelationsNoBreaks(b.relations);
    CommentsNoBreaks(b.comments);
    var head := ["# " + b.title, ""];
    NoBreakJoin("# ", b.title);
    var d, st, rl, cm := DescriptionBlock(b.description), SubTasksBlock(b.subTasks), RelationsBlock(b.relations), CommentsBlock(b.comments);
    NoBreaksAppend(head, d);
    NoBreaksAppend(head + d, st);
    NoBreaksAppend(head + d + st, rl);
    NoBreaksAppend(head + d + st + rl, cm);
  }

  /** What the final flush and join need of the scan's variables. */
  predicate Reached(r: BodyScan, title: string, descriptionLines: seq<string>, ss: seq<SubTask>,
                    rs: seq<Relation>, cs: seq<Comment>) {
    && r.title == title && r.descriptionLines == descriptionLines && r.subTasks == ss
    && r.relations == rs && Flush(r.comments, r.current) == cs
  }

  lemma {:induction false} CommentsTail(step: (BodyScan, string) -> BodyScan, st: BodyScan, cs: seq<Comment>)
    requires ReadsWritten(step)
    requires st.title != [] && st.comments == [] && st.current == None
    requires forall i :: 0 <= i < |cs| ==> CommentRenderable(cs[i])
    ensures Reached(Scan(step, st, CommentsBlock(cs)), st.title, st.descriptionLines, st.subTasks, st.relations, cs)
  {
    if cs != [] {
      CommentsScan(step, st, cs);
      assert [] + cs == cs;
    }
  }

  lemma {:induction false} RelationsTail(step: (BodyScan, string) -> BodyScan, st: BodyScan, rs: seq<Relation>, cs: seq<Comment>)
    requires ReadsWritten(step)
    requires st.title != [] && st.relations == [] && st.comments == [] && st.current == None
    requires forall i :: 0 <= i < |rs| ==> RelationRenderable(rs[i])
    requires forall i :: 0 <= i < |cs| ==> CommentRenderable(cs[i])
    ensures Reached(Scan(step, st, RelationsBlock(rs) + CommentsBlock(cs)), st.title, st.descriptionLines, st.subTasks, rs, cs)
  {
    var mid := Scan(step, st, RelationsBlock(rs));
    if rs != [] {
      RelationsScan(step, st, rs);
      assert [] + rs == rs;
    }
    assert mid.title == st.title && mid.relations == rs && mid.comments == [] && mid.current == None;
    CommentsTail(step, mid, cs);
    ScanAppend(step, st, RelationsBlock(rs), CommentsBlock(cs));
  }

  lemma {:induction false} SubTasksTail(step: (BodyScan, string) -> BodyScan, st: BodyScan, ss: seq<SubTask>, rs: seq<Relation>, cs: seq<Comment>)
    requires ReadsWritten(step)
    requires st.title != [] && st.subTasks == [] && st.relations == [] && st.comments == [] && st.current == None
    requires forall i :: 0 <= i < |ss| ==> SubTaskRenderable(ss[i])
    requires forall i :: 0 <= i < |rs| ==> RelationRenderable(rs[i])
    requires forall i :: 0 <= i < |cs| ==> CommentRenderable(cs[i])
    ensures Reached(Scan(step, st, SubTasksBlock(ss) + RelationsBlock(rs) + CommentsBlock(cs)), st.title, st.descriptionLines, ss, rs, cs)
  {
    var mid := Scan(step, st, SubTasksBlock(ss));
    if ss != [] {
      SubTasksScan(step, st, ss);
      assert [] + ss == ss;
    }
    assert mid.title == st.title && mid.subTasks == ss && mid.relations == [] && mid.comments == [] && mid.current == None;
    RelationsTail(step, mid, rs, cs);
    LinesAssoc(SubTasksBlock(ss), RelationsBlock(rs), CommentsBlock(cs));
    ScanAppend(step, st, SubTasksBlock(ss), RelationsBlock(rs) + CommentsBlock(cs));
  }

  /** The title and the description, then the sections. */
  lemma {:induction false} HeadTail(step: (BodyScan, string) -> BodyScan, b: TaskBody)
    requires ReadsWritten(step)
    requires Renderable(b)
    ensures Scan(step, InitialBodyScan, ["# " + b.title, ""] + DescriptionBlock(b.description))
            == BodyScan(b.title, Description, if b.description == [] then [] else SplitLines(b.description), [], [], [], None)
  {
    HeadScan(step, b.title);
    var s0 := InitialBodyScan.(title := b.title, section := Description);
    DescriptionScan(step, s0, b.description);
    ScanAppend(step, InitialBodyScan, ["# " + b.title, ""], DescriptionBlock(b.description));
    assert [] + SplitLines(b.description) == SplitLines(b.description);
  }

  /** The join and trim give the description back. */
  lemma {:induction false} DescriptionJoined(d: string)
    requires DescriptionRenderable(d)
    ensures Trim(JoinWith(if d == [] then [] else SplitLines(d), "\n")) == d
  {
    if d != [] {
      TrimOfTrimmed(d);
    } else {
      assert Trim(JoinWith([], "\n")) == [];
    }
  }

  lemma {:induction false} Regroup(a: seq<string>, b: seq<string>, c: seq<string>, d: seq<string>, e: seq<string>)
    ensures a + b + c + d + e == (a + b) + (c + d + e)
  {
  }

  /** The scan of the written lines, block by block, by any step that reads them as `BodyStep` does. */
  lemma {:induction false} BodyLinesScan(step: (BodyScan, string) -> BodyScan, b: TaskBody)
    requires ReadsWritten(step)
    requires Renderable(b)
    ensures FinishBody(Scan(step, InitialBodyScan, BodyLines(b))) == b
  {
    Regroup(["# " + b.title, ""], DescriptionBlock(b.description), SubTasksBlock(b.subTasks), RelationsBlock(b.relations), CommentsBlock(b.comments));
    var head := ["# " + b.title, ""] + DescriptionBlock(b.description);
    var rest := SubTasksBlock(b.subTasks) + RelationsBlock(b.relations) + CommentsBlock(b.comments);
    assert BodyLines(b) == head + rest;
    HeadTail(step, b);
    var st := Scan(step, InitialBodyScan, head);
    SubTasksTail(step, st, b.subTasks, b.relations, b.comments);
    ScanAppend(step, InitialBodyScan, head, rest);
    DescriptionJoined(b.description);
  }

  /** `getTask` reads back exactly the body `updateTask` wrote. */
  lemma {:induction false} ParseWrittenBody(b: TaskBody)
    requires Renderable(b)
    ensures ParseBodySpec(BodyText(b)) == b
  {
    var ls := BodyLines(b);
    BodyLinesNoBreaks(b);
    SplitUnlines(ls);
    BodyStepReads();
    var r := Scan(BodyStep, InitialBodyScan, ls);
    BodyLinesScan(BodyStep, b);
    ScanAppend(BodyStep, InitialBodyScan, ls, [""]);
    ScanOne(BodyStep, r, "");
    BlankStep(r);
  }

  /** So saving a parsed task again and reading it gives the same body. */
  lemma {:induction false} RewriteIsFixpoint(b: TaskBody)
    requires Renderable(b)
    ensures BodyText(ParseBodySpec(BodyText(b))) == BodyText(b)
  {
    ParseWrittenBody(b);
  }

  // ---------------------------------------------------------------------------------------
  // The front matter

  /** The dumped metadata holds no fence line before its own trailing newline. */
  predicate FenceFree(y: string) {
    forall j :: 0 <= j < |y| ==> !OccursAt(y + "\n---\n", "\n---\n", j)
  }

  /** The `---` framing of the file splits back into the dumped text and the body. */
  lemma {:induction false} SplitWritten(y: string, body: string)
    requires FenceFree(y)
    ensures SplitTaskFrontmatter("---\n" + (y + "\n") + "---\n" + body) == Some((y, body))
  {
    var s := "---\n" + (y + "\n") + "---\n" + body;
    var t := y + "\n---\n";
    var u := t + body;
    assert s == "---\n" + u;
    forall j | 4 <= j < 4 + |y| ensures !OccursAt(s, "\n---\n", j) {
      OccursAtShift("---\n", u, "\n---\n", j - 4);
      OccursInPrefix(t, body, "\n---\n", j - 4);
    }
    OccursAtShift("---\n", u, "\n---\n", |y|);
    OccursInPrefix(t, body, "\n---\n", |y|);
    assert t[|y|..|y| + 5] == "\n---\n";
    assert IndexOfFrom(s, "\n---\n", 4) == Some(4 + |y|);
    assert s[4..4 + |y|] == u[..|y|] == y;
    assert s[4 + |y| + 5..] == u[|y| + 5..] == body;
  }

  /**
   * `getTask` on the file `updateTask` wrote gives the metadata back and the body back, when
   * the dump ends its text with a newline, holds no fence line, and loads back to `m'`.
   */
  lemma {:induction false} ReadWrittenTask(m: Metadata, b: TaskBody, dump: Metadata -> Option<string>,
                        load: string -> YamlLoad, y: string, m': Metadata)
    requires Renderable(b)
    requires dump(m) == Some(y + "\n") && FenceFree(y) && load(y) == Loaded(m')
    ensures ReadTask(FileText(m, BodyText(b), dump), load) == TaskDoc(m', b)
  {
    SplitWritten(y, BodyText(b));
    ParseWrittenBody(b);
  }

  // ---------------------------------------------------------------------------------------
  // What every parse gives, whatever the text

  predicate CommentTrimmed(c: Comment) {
    Trimmed(c.author) && Trimmed(c.date) && Trimmed(c.text)
  }

  /** The loop's variables hold only trimmed fields, non-empty kept items and description
    * lines that are single, non-blank lines. */
  predicate Shaped(st: BodyScan) {
    && Trimmed(st.title)
    && (forall i :: 0 <= i < |st.descriptionLines| ==> '\n' !in st.descriptionLines[i] && Trim(st.descriptionLines[i]) != [])
    && (forall i :: 0 <= i < |st.subTasks| ==> st.subTasks[i].description != [] && Trimmed(st.subTasks[i].description))
    && (forall i :: 0 <= i < |st.relations| ==> Trimmed(st.relations[i].name) && Trimmed(st.relations[i].target))
    && (forall i :: 0 <= i < |st.comments| ==> st.comments[i].author != [] && CommentTrimmed(st.comments[i]))
    && (st.current.Some? ==> CommentTrimmed(st.current.value))
  }

  lemma {:induction false} SubTaskStepShaped(st: BodyScan, line: string)
    requires Shaped(st)
    ensures Shaped(SubTaskStep(st, line))
  {
  }

  lemma {:induction false} AddRelationShaped(st: BodyScan, r: Relation)
    requires Shaped(st) && Trimmed(r.name) && Trimmed(r.target)
    ensures Shaped(st.(relations := st.relations + [r]))
  {
  }

  lemma {:induction false} RelationStepShaped(st: BodyScan, line: string)
    requires Shaped(st)
    ensures Shaped(RelationStep(st, line))
  {
    match MatchLink(line)
    case None =>
    case Some(link) => AddRelationShaped(st, RelationOf(link));
  }

  lemma {:induction false} FlushShaped(comments: seq<Comment>, current: Option<Comment>)
    requires forall i :: 0 <= i < |comments| ==> comments[i].author != [] && CommentTrimmed(comments[i])
    requires current.Some? ==> CommentTrimmed(current.value)
    ensures var r := Flush(comments, current);
            forall i :: 0 <= i < |r| ==> r[i].author != [] && CommentTrimmed(r[i])
  {
  }

  lemma {:induction false} CommentStepShaped(st: BodyScan, line: string)
    requires Shaped(st)
    ensures Shaped(CommentStep(st, line))
  {
    FlushShaped(st.comments, st.current);
  }

  lemma {:induction false} SectionStepShaped(st: BodyScan, line: string)
    requires Shaped(st) && '\n' !in line
    ensures Shaped(SectionStep(st, line))
  {
    if st.section == Description && Trim(line) != "" {
    } else if st.section == SubTasksSection && StartsWith(Trim(line), "- [") {
      SubTaskStepShaped(st, line);
    } else if st.section == RelationsSection && StartsWith(Trim(line), "- [") {
      RelationStepShaped(st, line);
    } else if st.section == CommentsSection {
      CommentStepShaped(st, line);
    }
  }

  lemma {:induction false} BodyStepShaped(st: BodyScan, line: string)
    requires Shaped(st) && '\n' !in line
    ensures Shaped(BodyStep(st, line))
  {
    if !(StartsWith(line, "# ") && st.title == "") && !StartsWith(line, "## ") {
      SectionStepShaped(st, line);
    }
  }

  lemma {:induction false} ScanShaped(st: BodyScan, lines: seq<string>, i: nat)
    requires Shaped(st) && forall j :: 0 <= j < |lines| ==> '\n' !in lines[j]
    ensures Shaped(ScanFrom(BodyStep, st, lines, i))
    decreases |lines| - i
  {
    if i < |lines| {
      BodyStepShaped(st, lines[i]);
      ScanShaped(BodyStep(st, lines[i]), lines, i + 1);
    }
  }

  /** No line of `s` is blank. */
  predicate NoBlankLine(s: string) {
    forall i :: 0 <= i < |SplitLines(s)| ==> Trim(SplitLines(s)[i]) != []
  }

  /** Trimming the end of a text without blank lines only trims its last line. */
  lemma {:induction false} TrimEndLines(s: string)
    requires NoBlankLine(s)
    ensures TrimEnd(s) != [] && NoBlankLine(TrimEnd(s))
    decreases |s|
  {
    var ms := SplitLines(s);
    var e := TrimEnd(s);
    if |ms| == 1 {
      assert s == ms[0];
      if e == [] { TrimEndBlank(s); }
      InSlice(s, 0, |e|, '\n');
      SplitLinesSingle(e);
    } else {
      var rest := JoinWith(ms[1..], "\n");
      assert s == ms[0] + "\n" + rest;
      SplitLinesCons(ms[0], rest);
      assert SplitLines(rest) == ms[1..];
      TrimEndLines(rest);
      TrimEndConcat(ms[0] + "\n", rest);
      SplitLinesCons(ms[0], TrimEnd(rest));
    }
  }

  /** A non-blank line keeps a non-blank rest when its leading white space is trimmed. */
  lemma {:induction false} TrimStartLine(l: string)
    requires '\n' !in l && Trim(l) != []
    ensures var t := TrimStart(l); t != [] && '\n' !in t && Trim(t) != []
  {
    var t := TrimStart(l);
    assert l[..|l|] == l;
    TrimStartSuffix(l);
    InSlice(l, |l| - |t|, |l|, '\n');
  }

  /** Before a line feed, `trimStart` stops in the first line when that line is not blank. */
  lemma {:induction false} TrimStartFirst(l: string, rest: string)
    requires '\n' !in l && Trim(l) != []
    ensures SplitLines(TrimStart(l + "\n" + rest)) == [TrimStart(l)] + SplitLines(rest)
  {
    TrimStartLine(l);
    assert l + "\n" + rest == l + ("\n" + rest);
    TrimStartConcat(l, "\n" + rest);
    assert TrimStart(l) + ("\n" + rest) == TrimStart(l) + "\n" + rest;
    SplitLinesCons(TrimStart(l), rest);
  }

  /** Trimming the start of a text without blank lines only trims its first line. */
  lemma {:induction false} TrimStartLines(s: string)
    requires NoBlankLine(s)
    ensures NoBlankLine(TrimStart(s))
  {
    var ms := SplitLines(s);
    var t := TrimStart(ms[0]);
    TrimStartLine(ms[0]);
    if |ms| == 1 {
      assert s == ms[0];
      SplitLinesSingle(t);
    } else {
      var rest := JoinWith(ms[1..], "\n");
      assert s == ms[0] + "\n" + rest;
      SplitLinesCons(ms[0], rest);
      TrimStartFirst(ms[0], rest);
      var ns := SplitLines(TrimStart(s));
      assert ns == [t] + ms[1..];
      forall i | 0 <= i < |ns| ensures Trim(ns[i]) != [] {
        if i > 0 { assert ns[i] == ms[i]; }
      }
    }
  }

  /** The description `getTask` joins and trims has no blank line. */
  lemma {:induction false} JoinedLines(ls: seq<string>)
    requires |ls| >= 1
    requires forall i :: 0 <= i < |ls| ==> '\n' !in ls[i] && Trim(ls[i]) != []
    ensures NoBlankLine(Trim(JoinWith(ls, "\n")))
  {
    var j := JoinWith(ls, "\n");
    SplitJoin(ls);
    TrimEndLines(j);
    TrimStartLines(TrimEnd(j));
  }

  /**
   * Whatever the text, `getTask` gives a trimmed title, a trimmed description without blank
   * lines, sub-tasks with
   * trimmed non-empty text, relations with trimmed names and targets, and comments with a
   * non-empty author and trimmed fields.
   */
  lemma {:induction false} ParsedShape(body: string)
    ensures var r := ParseBodySpec(body);
            && Trimmed(r.title) && Trimmed(r.description)
            && (r.description != [] ==> NoBlankLine(r.description))
            && (forall i :: 0 <= i < |r.subTasks| ==> r.subTasks[i].description != [] && Trimmed(r.subTasks[i].description))
            && (forall i :: 0 <= i < |r.relations| ==> Trimmed(r.relations[i].name) && Trimmed(r.relations[i].target))
            && (forall i :: 0 <= i < |r.comments| ==> r.comments[i].author != [] && CommentTrimmed(r.comments[i]))
  {
    var st := Scan(BodyStep, InitialBodyScan, SplitLines(body));
    ScanShaped(InitialBodyScan, SplitLines(body), 0);
    FlushShaped(st.comments, st.current);
    if st.descriptionLines != [] {
      JoinedLines(st.descriptionLines);
    }
  }
}
