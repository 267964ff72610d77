/**
 * A task file: the front-matter split and the section state machine of `getTask`, and the
 * text `updateTask` writes. Each loop of the source is a method proved equal to a fold
 * (or a line list) defined here.
 */
module TaskFormat {
  import opened Wrappers
  import opened Text
  import opened Links

  datatype SubTask = SubTask(description: string, completed: bool)

  datatype Relation = Relation(name: string, target: string)

  datatype Comment = Comment(author: string, date: string, text: string)

  /** The parts of a task below its front matter, as `getTask` returns them. */
  datatype TaskBody = TaskBody(title: string, description: string, subTasks: seq<SubTask>,
                               relations: seq<Relation>, comments: seq<Comment>)

  /** Front-matter metadata, each key's value as text; a missing key or `""` is falsy. */
  type Metadata = map<string, string>

  /** What `yaml.load` makes of a text: a mapping, a falsy value, or an exception. */
  datatype YamlLoad = Loaded(m: Metadata) | LoadedFalsy | LoadThrows

  /** What `getTask` returns: the metadata and the parsed body. */
  datatype TaskDoc = TaskDoc(metadata: Metadata, body: TaskBody)

  // ---------------------------------------------------------------------------------------
  // The front matter of a task file

  /**
   * `/^---\n([\s\S]*?)\n---\n([\s\S]*)$/`: when the text opens with `---\n`, the lazy first
   * group ends at the first `\n---\n` found from index 4 on and the second group is the rest.
   */
  function SplitTaskFrontmatter(content: string): (r: Option<(string, string)>)
    ensures r.Some? ==> content == "---\n" + r.value.0 + "\n---\n" + r.value.1
    ensures r.Some? ==> forall j :: 4 <= j < 4 + |r.value.0| ==> !OccursAt(content, "\n---\n", j)
    ensures r.None? <==> !StartsWith(content, "---\n") || forall j :: 4 <= j ==> !OccursAt(content, "\n---\n", j)
  {
    if StartsWith(content, "---\n") then
      match IndexOfFrom(content, "\n---\n", 4)
      case None => None
      case Some(k) =>
        assert content == content[..4] + content[4..k] + content[k..k + 5] + content[k + 5..];
        Some((content[4..k], content[k + 5..]))
    else None
  }

  /**
   * The metadata and body `getTask` works on: the loaded front matter (or `{}` when the load
   * gives a falsy value) and the second group; with no match, or when the load throws, `{}`
   * and the whole text.
   */
  function ReadFrontmatter(content: string, load: string -> YamlLoad): (r: (Metadata, string))
    ensures EndsWith(content, r.1)
    ensures r.0 != map[] ==> exists p :: SplitTaskFrontmatter(content) == Some(p) && load(p.0) == Loaded(r.0)
    ensures SplitTaskFrontmatter(content).None? ==> r == (map[], content)
    ensures var s := SplitTaskFrontmatter(content);
            s.Some? && load(s.value.0).LoadThrows? ==> r == (map[], content)
    ensures var s := SplitTaskFrontmatter(content);
            s.Some? && load(s.value.0).LoadedFalsy? ==> r == (map[], s.value.1)
    ensures var s := SplitTaskFrontmatter(content);
            s.Some? && load(s.value.0).Loaded? ==> r == (load(s.value.0).m, s.value.1)
  {
    match SplitTaskFrontmatter(content)
    case None => (map[], content)
    case Some(p) =>
      assert content[|content| - |p.1|..] == p.1;
      match load(p.0)
      case LoadThrows => (map[], content)
      case LoadedFalsy => (map[], p.1)
      case Loaded(m) => (m, p.1)
  }

  // ---------------------------------------------------------------------------------------
  // The body of a task file

  /** `currentSection`. */
  datatype Section = Header | Description | SubTasksSection | RelationsSection | CommentsSection | OtherSection

  /** The section a `## <heading>` line opens, by its trimmed, lower-cased name. */
  function SectionOf(heading: string): (s: Section)
    ensures s != Header && s != Description
  {
    var name := Lower(Trim(heading));
    if name == "sub-tasks" then SubTasksSection
    else if name == "relations" then RelationsSection
    else if name == "comments" then CommentsSection
    else OtherSection
  }

  /** The loop's variables: what has been read so far and the comment still open. */
  datatype BodyScan = BodyScan(title: string, section: Section, descriptionLines: seq<string>,
                               subTasks: seq<SubTask>, relations: seq<Relation>,
                               comments: seq<Comment>, current: Option<Comment>)

  const InitialBodyScan: BodyScan := BodyScan("", Header, [], [], [], [], None)

  /** `line.replace(/^- \[[xX ]\]\s*\/, '')`: the check box and the white space after it. */
  function StripCheckbox(line: string): string {
    if |line| >= 5 && line[..3] == "- [" && (line[3] == 'x' || line[3] == 'X' || line[3] == ' ') && line[4] == ']'
    then TrimStart(line[5..])
    else line
  }

  /** The sub-task a `- [` line describes: ticked when `[x]` or `[X]` occurs anywhere in it. */
  function SubTaskOf(line: string): SubTask {
    SubTask(Trim(StripCheckbox(line)), Contains(line, "[x]") || Contains(line, "[X]"))
  }

  /** A sub-task line: kept when its text is not empty. */
  function SubTaskStep(st: BodyScan, line: string): BodyScan {
    var s := SubTaskOf(line);
    if s.description != "" then st.(subTasks := st.subTasks + [s]) else st
  }

  /** The relation a link gives: the trimmed text, and the target with its first `.md` removed. */
  function RelationOf(link: Link): Relation {
    Relation(Trim(link.text), Trim(ReplaceFirst(link.target, ".md", "")))
  }

  /** A relation line: kept when the link pattern matches somewhere in it. */
  function RelationStep(st: BodyScan, line: string): BodyScan {
    match MatchLink(line)
    case None => st
    case Some(link) => st.(relations := st.relations + [RelationOf(link)])
  }

  /** Closing the open comment: it is kept only when its author is not empty. */
  function Flush(comments: seq<Comment>, current: Option<Comment>): (r: seq<Comment>)
    ensures r == comments || (current.Some? && r == comments + [current.value])
  {
    if current.Some? && current.value.author != "" then comments + [current.value] else comments
  }

  /**
   * A line of the comments section: `- author:` closes the open comment and opens a new one,
   * `date:` sets the open comment's date, and any other non-blank line becomes its text once
   * it has an author and a date.
   */
  function CommentStep(st: BodyScan, line: string): BodyScan {
    var t := Trim(line);
    if StartsWith(t, "- author:") then
      st.(comments := Flush(st.comments, st.current),
          current := Some(Comment(Trim(ReplaceFirst(line, "- author:", "")), "", "")))
    else if StartsWith(t, "date:") && st.current.Some? then
      st.(current := Some(st.current.value.(date := Trim(ReplaceFirst(line, "date:", "")))))
    else if st.current.Some? && st.current.value.author != "" && st.current.value.date != "" && t != "" then
      st.(current := Some(st.current.value.(text := t)))
    else st
  }

  /** A line that is neither the title nor a heading, read by the section it is in. */
  function SectionStep(st: BodyScan, line: string): BodyScan {
    if st.section == Description && Trim(line) != "" then st.(descriptionLines := st.descriptionLines + [line])
    else if st.section == SubTasksSection && StartsWith(Trim(line), "- [") then SubTaskStep(st, line)
    else if st.section == RelationsSection && StartsWith(Trim(line), "- [") then RelationStep(st, line)
    else if st.section == CommentsSection then CommentStep(st, line)
    else st
  }

  /** One line of the body, with the checks in the order of the source's `continue`s. */
  function BodyStep(st: BodyScan, line: string): BodyScan {
    if StartsWith(line, "# ") && st.title == "" then st.(title := Trim(line[2..]), section := Description)
    else if StartsWith(line, "## ") then st.(section := SectionOf(line[3..]))
    else SectionStep(st, line)
  }

  /** After the loop: the last comment is flushed and the description joined and trimmed. */
  function FinishBody(st: BodyScan): TaskBody {
    TaskBody(st.title, Trim(JoinWith(st.descriptionLines, "\n")), st.subTasks, st.relations, Flush(st.comments, st.current))
  }

  /** The body `getTask` parses out of the text after the front matter. */
  function ParseBodySpec(body: string): TaskBody {
    FinishBody(Scan(BodyStep, InitialBodyScan, SplitLines(body)))
  }

  /** `getTask` once the file is read: its metadata and its parsed body. */
  function ReadTask(content: string, load: string -> YamlLoad): TaskDoc {
    var (m, body) := ReadFrontmatter(content, load);
    TaskDoc(m, ParseBodySpec(body))
  }

  /** The body of the loop of `getTask`: one line read into the loop's variables. */
  method ScanBodyLine(st: BodyScan, line: string) returns (st': BodyScan)
    ensures st' == BodyStep(st, line)
  {
    st' := st;
    if StartsWith(line, "# ") && st.title == "" {
      st' := st'.(title := Trim(line[2..]), section := Description);
      return;
    }
    if StartsWith(line, "## ") {
      st' := st'.(section := SectionOf(line[3..]));
      return;
    }
    var trimmed := Trim(line);
    if st.section == Description && trimmed != "" {
      st' := st'.(descriptionLines := st.descriptionLines + [line]);
    } else if st.section == SubTasksSection && StartsWith(trimmed, "- [") {
      var completed := Contains(line, "[x]") || Contains(line, "[X]");
      var desc := Trim(StripCheckbox(line));
      if desc != "" {
        st' := st'.(subTasks := st.subTasks + [SubTask(desc, completed)]);
      }
    } else if st.section == RelationsSection && StartsWith(trimmed, "- [") {
      var m := MatchLink(line);
      if m.Some? {
        var name := Trim(m.value.text);
        var target := Trim(ReplaceFirst(m.value.target, ".md", ""));
        st' := st'.(relations := st.relations + [Relation(name, target)]);
      }
    } else if st.section == CommentsSection {
      if StartsWith(trimmed, "- author:") {
        var comments := st.comments;
        if st.current.Some? && st.current.value.author != "" {
          comments := comments + [st.current.value];
        }
        st' := st'.(comments := comments, current := Some(Comment(Trim(ReplaceFirst(line, "- author:", "")), "", "")));
      } else if StartsWith(trimmed, "date:") && st.current.Some? {
        st' := st'.(current := Some(st.current.value.(date := Trim(ReplaceFirst(line, "date:", "")))));
      } else if st.current.Some? && st.current.value.author != "" && st.current.value.date != "" && trimmed != "" {
        st' := st'.(current := Some(st.current.value.(text := trimmed)));
      }
    }
  }

  /** The body parse of `getTask`. */
  method ParseTaskBody(body: string) returns (r: TaskBody)
    ensures r == ParseBodySpec(body)
  {
    var lines := SplitLines(body);
    var st := InitialBodyScan;
    var i := 0;
    while i < |lines|
      invariant 0 <= i <= |lines|
      invariant ScanFrom(BodyStep, st, lines, i) == Scan(BodyStep, InitialBodyScan, lines)
    {
      st := ScanBodyLine(st, lines[i]);
      i := i + 1;
    }
    var comments := st.comments;
    if st.current.Some? && st.current.value.author != "" {
      comments := comments + [st.current.value];
    }
    r := TaskBody(st.title, Trim(JoinWith(st.descriptionLines, "\n")), st.subTasks, st.relations, comments);
  }

  /** The front-matter split and the body parse of `getTask`, on the file's text. */
  method ParseTask(content: string, load: string -> YamlLoad) returns (doc: TaskDoc)
    ensures doc == ReadTask(content, load)
  {
    var metadata: Metadata := map[];
    var body := content;
    var m := SplitTaskFrontmatter(content);
    if m.Some? {
      match load(m.value.0)
      case LoadThrows =>
      case LoadedFalsy =>
        body := m.value.1;
      case Loaded(y) =>
        metadata := y;
        body := m.value.1;
    }
    var parsed := ParseTaskBody(body);
    doc := TaskDoc(metadata, parsed);
  }

  // ---------------------------------------------------------------------------------------
  // The text updateTask writes

  function Checkbox(completed: bool): string {
    if completed then "[x]" else "[ ]"
  }

  /** `- [x] <text>` or `- [ ] <text>`. */
  function SubTaskLine(s: SubTask): string {
    "- " + Checkbox(s.completed) + " " + s.description
  }

  /** `- [<name>](<target>.md)`. */
  function RelationLine(r: Relation): string {
    "- [" + r.name + "](" + r.target + ".md)"
  }

  /** The author line, the indented date and text, and a blank line. */
  function CommentLines(c: Comment): seq<string> {
    ["- author: " + c.author, "  date: " + c.date, "  " + c.text, ""]
  }

  function SubTaskLines(ss: seq<SubTask>): (r: seq<string>)
    ensures |r| == |ss|
    decreases |ss|
  {
    if ss == [] then [] else SubTaskLines(ss[..|ss| - 1]) + [SubTaskLine(ss[|ss| - 1])]
  }

  function RelationLines(rs: seq<Relation>): (r: seq<string>)
    ensures |r| == |rs|
    decreases |rs|
  {
    if rs == [] then [] else RelationLines(rs[..|rs| - 1]) + [RelationLine(rs[|rs| - 1])]
  }

  function CommentsLines(cs: seq<Comment>): (r: seq<string>)
    ensures |r| == 4 * |cs|
    decreases |cs|
  {
    if cs == [] then [] else CommentsLines(cs[..|cs| - 1]) + CommentLines(cs[|cs| - 1])
  }

  /** The title, then the description (its lines, then a blank line) and each section only
    * when it has something to show. */
  function DescriptionBlock(d: string): seq<string> {
    if d != "" then SplitLines(d) + [""] else []
  }

  function SubTasksBlock(ss: seq<SubTask>): seq<string> {
    if |ss| > 0 then ["## Sub-tasks", ""] + SubTaskLines(ss) + [""] else []
  }

  function RelationsBlock(rs: seq<Relation>): seq<string> {
    if |rs| > 0 then ["## Relations", ""] + RelationLines(rs) + [""] else []
  }

  function CommentsBlock(cs: seq<Comment>): seq<string> {
    if |cs| > 0 then ["## Comments", ""] + CommentsLines(cs) else []
  }

  function BodyLines(b: TaskBody): seq<string> {
    ["# " + b.title, ""] + DescriptionBlock(b.description) + SubTasksBlock(b.subTasks)
    + RelationsBlock(b.relations) + CommentsBlock(b.comments)
  }

  /** The body `updateTask` builds. */
  function BodyText(b: TaskBody): string {
    Unlines(BodyLines(b))
  }

  /** One more sub-task written: its line and a line feed. */
  lemma {:induction false} SubTaskLinesStep(before: seq<string>, ss: seq<SubTask>, i: nat)
    requires i < |ss|
    ensures Unlines(before + SubTaskLines(ss[..i + 1])) == Unlines(before + SubTaskLines(ss[..i])) + SubTaskLine(ss[i]) + "\n"
  {
    assert ss[..i + 1][..i] == ss[..i];
    UnlinesSnoc(before + SubTaskLines(ss[..i]), SubTaskLine(ss[i]));
    assert before + SubTaskLines(ss[..i + 1]) == (before + SubTaskLines(ss[..i])) + [SubTaskLine(ss[i])];
  }

  /** One more relation written: its line and a line feed. */
  lemma {:induction false} RelationLinesStep(before: seq<string>, rs: seq<Relation>, i: nat)
    requires i < |rs|
    ensures Unlines(before + RelationLines(rs[..i + 1])) == Unlines(before + RelationLines(rs[..i])) + RelationLine(rs[i]) + "\n"
  {
    assert rs[..i + 1][..i] == rs[..i];
    UnlinesSnoc(before + RelationLines(rs[..i]), RelationLine(rs[i]));
    assert before + RelationLines(rs[..i + 1]) == (before + RelationLines(rs[..i])) + [RelationLine(rs[i])];
  }

  /** The sub-task loop of `updateTask`. */
  method AppendSubTasks(body: string, before: seq<string>, ss: seq<SubTask>) returns (r: string)
    requires body == Unlines(before)
    ensures r == Unlines(before + SubTaskLines(ss))
  {
    r := body;
    var i := 0;
    assert before + SubTaskLines(ss[..0]) == before;
    while i < |ss|
      invariant 0 <= i <= |ss|
      invariant r == Unlines(before + SubTaskLines(ss[..i]))
    {
      var checkbox := if ss[i].completed then "[x]" else "[ ]";
      SubTaskLinesStep(before, ss, i);
      r := r + ("- " + checkbox + " " + ss[i].description + "\n");
      i := i + 1;
    }
    assert ss[..i] == ss;
  }

  /** The relation loop of `updateTask`. */
  method AppendRelations(body: string, before: seq<string>, rs: seq<Relation>) returns (r: string)
    requires body == Unlines(before)
    ensures r == Unlines(before + RelationLines(rs))
  {
    r := body;
    var i := 0;
    assert before + RelationLines(rs[..0]) == before;
    while i < |rs|
      invariant 0 <= i <= |rs|
      invariant r == Unlines(before + RelationLines(rs[..i]))
    {
      RelationLinesStep(before, rs, i);
      r := r + ("- [" + rs[i].name + "](" + rs[i].target + ".md)" + "\n");
      i := i + 1;
    }
    assert rs[..i] == rs;
  }

  /** One comment: four lines. */
  lemma {:induction false} UnlinesComment(before: seq<string>, c: Comment)
    ensures Unlines(before + CommentLines(c))
            == Unlines(before) + ("- author: " + c.author + "\n") + ("  date: " + c.date + "\n") + ("  " + c.text + "\n\n")
  {
    var a, d, t := "- author: " + c.author, "  date: " + c.date, "  " + c.text;
    var u, la, ld, lt := Unlines(before), a + "\n", d + "\n", t + "\n\n";
    assert before + CommentLines(c) == (before + [a, d]) + [t, ""];
    UnlinesPair(before, a, d);
    StringAssoc(la, d, "\n");
    StringAssoc(u, la, ld);
    UnlinesPair(before + [a, d], t, "");
    StringAssoc(t, "\n", "");
    assert "\n" + "" + "\n" == "\n\n";
    StringAssoc(t, "\n", "\n");
  }

  /** One more comment written: its four lines. */
  lemma {:induction false} CommentsLinesStep(before: seq<string>, cs: seq<Comment>, i: nat)
    requires i < |cs|
    ensures Unlines(before + CommentsLines(cs[..i + 1]))
            == Unlines(before + CommentsLines(cs[..i])) + ("- author: " + cs[i].author + "\n") + ("  date: " + cs[i].date + "\n") + ("  " + cs[i].text + "\n\n")
  {
    assert cs[..i + 1][..i] == cs[..i];
    UnlinesComment(before + CommentsLines(cs[..i]), cs[i]);
    assert before + CommentsLines(cs[..i + 1]) == (before + CommentsLines(cs[..i])) + CommentLines(cs[i]);
  }

  /** The comment loop of `updateTask`. */
  method AppendComments(body: string, before: seq<string>, cs: seq<Comment>) returns (r: string)
    requires body == Unlines(before)
    ensures r == Unlines(before + CommentsLines(cs))
  {
    r := body;
    var i := 0;
    assert before + CommentsLines(cs[..0]) == before;
    while i < |cs|
      invariant 0 <= i <= |cs|
      invariant r == Unlines(before + CommentsLines(cs[..i]))
    {
      CommentsLinesStep(before, cs, i);
      r := r + ("- author: " + cs[i].author + "\n");
      r := r + ("  date: " + cs[i].date + "\n");
      r := r + ("  " + cs[i].text + "\n\n");
      i := i + 1;
    }
    assert cs[..i] == cs;
  }

  /** Two lines at once: `<a>\n\n` when the second is blank. */
  lemma {:induction false} UnlinesBlankAfter(before: seq<string>, a: string)
    ensures Unlines(before + [a, ""]) == Unlines(before) + (a + "\n\n")
  {
    UnlinesPair(before, a, "");
  }

  /** A text of several lines written in one piece, then a blank line: `<d>\n\n`. */
  lemma {:induction false} UnlinesParagraph(before: seq<string>, d: string)
    ensures Unlines(before + (SplitLines(d) + [""])) == Unlines(before) + (d + "\n\n")
  {
    UnlinesAppend(before, SplitLines(d) + [""]);
    UnlinesSnoc(SplitLines(d), "");
    UnlinesSplit(d);
  }

  /** The description paragraph, when there is one. */
  method AppendDescription(body: string, before: seq<string>, d: string) returns (r: string)
    requires body == Unlines(before)
    ensures r == Unlines(before + DescriptionBlock(d))
  {
    r := body;
    if d != "" {
      UnlinesParagraph(before, d);
      r := r + (d + "\n\n");
    } else {
      assert before + DescriptionBlock(d) == before;
    }
  }

  /** The sub-tasks section, when there are sub-tasks. */
  method AppendSubTasksBlock(body: string, before: seq<string>, ss: seq<SubTask>) returns (r: string)
    requires body == Unlines(before)
    ensures r == Unlines(before + SubTasksBlock(ss))
  {
    r := body;
    if |ss| > 0 {
      UnlinesHeading(before, "## Sub-tasks", "## Sub-tasks\n\n");
      r := r + "## Sub-tasks\n\n";
      r := AppendSubTasks(r, before + ["## Sub-tasks", ""], ss);
      UnlinesClosed(before, "## Sub-tasks", SubTaskLines(ss));
      r := r + "\n";
    } else {
      assert before + SubTasksBlock(ss) == before;
    }
  }

  /** The relations section, when there are relations. */
  method AppendRelationsBlock(body: string, before: seq<string>, rs: seq<Relation>) returns (r: string)
    requires body == Unlines(before)
    ensures r == Unlines(before + RelationsBlock(rs))
  {
    r := body;
    if |rs| > 0 {
      UnlinesHeading(before, "## Relations", "## Relations\n\n");
      r := r + "## Relations\n\n";
      r := AppendRelations(r, before + ["## Relations", ""], rs);
      UnlinesClosed(before, "## Relations", RelationLines(rs));
      r := r + "\n";
    } else {
      assert before + RelationsBlock(rs) == before;
    }
  }

  /** The comments section, when there are comments. */
  method AppendCommentsBlock(body: string, before: seq<string>, cs: seq<Comment>) returns (r: string)
    requires body == Unlines(before)
    ensures r == Unlines(before + CommentsBlock(cs))
  {
    r := body;
    if |cs| > 0 {
      UnlinesHeading(before, "## Comments", "## Comments\n\n");
      r := r + "## Comments\n\n";
      r := AppendComments(r, before + ["## Comments", ""], cs);
      LinesAssoc(before, ["## Comments", ""], CommentsLines(cs));
    } else {
      assert before + CommentsBlock(cs) == before;
    }
  }

  /** The body building of `updateTask`. */
  method BuildBody(data: TaskBody) returns (body: string)
    ensures body == BodyText(data)
  {
    var head := ["# " + data.title, ""];
    UnlinesBlankAfter([], "# " + data.title);
    assert [] + head == head;
    body := "# " + data.title + "\n\n";
    body := AppendDescription(body, head, data.description);
    var w1 := head + DescriptionBlock(data.description);
    body := AppendSubTasksBlock(body, w1, data.subTasks);
    var w2 := w1 + SubTasksBlock(data.subTasks);
    body := AppendRelationsBlock(body, w2, data.relations);
    var w3 := w2 + RelationsBlock(data.relations);
    body := AppendCommentsBlock(body, w3, data.comments);
  }

  // ---------------------------------------------------------------------------------------
  // Metadata and the whole file

  /** Whether `metadata.created` is truthy. */
  predicate HasCreated(m: Metadata) {
    "created" in m && m["created"] != ""
  }

  /**
   * `metadata.updated = now` always, and `metadata.created = now` only when it is falsy; the
   * two clock readings are separate calls in the source, so they are separate parameters.
   */
  function Stamp(m: Metadata, updatedAt: string, createdAt: string): (r: Metadata)
    ensures r.Keys == m.Keys + {"updated", "created"}
    ensures r["updated"] == updatedAt
    ensures r["created"] == if HasCreated(m) then m["created"] else createdAt
    ensures forall k :: k in m && k != "updated" && k != "created" ==> r[k] == m[k]
  {
    var m1 := m["updated" := updatedAt];
    if "created" in m1 && m1["created"] != "" then m1 else m1["created" := createdAt]
  }

  /** The file: the dumped metadata between `---` lines, then the body; the bare body when the dump throws. */
  function FileText(m: Metadata, body: string, dump: Metadata -> Option<string>): (r: string)
    ensures EndsWith(r, body)
    ensures dump(m).None? ==> r == body
    ensures dump(m).Some? ==> r == "---\n" + dump(m).value + "---\n" + body
  {
    match dump(m)
    case Some(y) =>
      var r := "---\n" + y + "---\n" + body;
      assert r[|r| - |body|..] == body;
      r
    case None => body
  }

  /** The file text of `updateTask`, from the body builder and the stamped metadata. */
  method BuildTaskFile(data: TaskBody, metadata: Metadata, updatedAt: string, createdAt: string,
                       dump: Metadata -> Option<string>) returns (text: string)
    ensures text == FileText(Stamp(metadata, updatedAt, createdAt), BodyText(data), dump)
  {
    var m := metadata["updated" := updatedAt];
    if !("created" in m && m["created"] != "") {
      m := m["created" := createdAt];
    }
    var body := BuildBody(data);
    var y := dump(m);
    if y.Some? {
      text := "---\n" + y.value + "---\n" + body;
    } else {
      text := body;
    }
  }
}
