/**
 * The markdown link syntax shared by index lines and relation lines, the task id read from a
 * link path, and the id `createTask` derives from a title.
 */
module Links {
  import opened Wrappers
  import opened Text

  datatype Link = Link(text: string, target: string)

  /** A link text the matcher reads back whole: no line terminator and no `](`. */
  predicate NoLinkClose(t: string) {
    forall j :: 0 <= j < |t| ==> !OccursAt(t, "](", j)
  }

  /** A link target the matcher reads back whole: no line terminator and no `)`. */
  predicate LinkTargetSafe(p: string) {
    NoLineTerminator(p) && ')' !in p
  }

  predicate LinkTextSafe(t: string) {
    NoLineTerminator(t) && NoLinkClose(t)
  }

  /**
   * A lazy group `(.*?)` started at index `i` and followed by `stop`: the first index at or
   * after `i` where `stop` occurs, as long as no line terminator comes first (`.` does not
   * match one). When the lazy group stops at the first such index and the rest of the pattern
   * then fails, a longer group cannot help: but see MatchAt for why that holds here.
   */
  function LazyUntil(s: string, i: nat, stop: string): (r: Option<nat>)
    requires i <= |s|
    ensures r.Some? ==> i <= r.value && OccursAt(s, stop, r.value)
    ensures r.Some? ==> forall j :: i <= j < r.value ==> !IsLineTerminator(s[j]) && !OccursAt(s, stop, j)
    ensures r.None? ==> forall k :: i <= k && OccursAt(s, stop, k) ==> exists j :: i <= j < k && IsLineTerminator(s[j])
    decreases |s| - i
  {
    if OccursAt(s, stop, i) then Some(i)
    else if i == |s| || IsLineTerminator(s[i]) then None
    else LazyUntil(s, i + 1, stop)
  }

  /** What the lazy group matched holds no line terminator and no occurrence of `stop`. */
  lemma {:induction false} LazyGroup(s: string, i: nat, k: nat, stop: string)
    requires i <= k <= |s|
    requires forall j :: i <= j < k ==> !IsLineTerminator(s[j]) && !OccursAt(s, stop, j)
    ensures NoLineTerminator(s[i..k])
    ensures forall j :: 0 <= j < k - i ==> !OccursAt(s[i..k], stop, j)
  {
    var g := s[i..k];
    forall j | 0 <= j < |g| ensures !IsLineTerminator(g[j]) && !OccursAt(g, stop, j) {
      assert g[j] == s[i + j];
      OccursInSlice(s, i, k, stop, j);
    }
  }

  /** The lazy group ends at the first occurrence of `stop` when nothing stops it earlier. */
  lemma {:induction false} LazyUntilAt(s: string, i: nat, k: nat, stop: string)
    requires i <= k && OccursAt(s, stop, k)
    requires forall j :: i <= j < k ==> !IsLineTerminator(s[j]) && !OccursAt(s, stop, j)
    ensures LazyUntil(s, i, stop) == Some(k)
  {
    var r := LazyUntil(s, i, stop);
    assert !exists j :: i <= j < k && IsLineTerminator(s[j]);
    assert r.Some?;
    assert !(r.value < k) && !(k < r.value);
  }

  /**
   * The regular expression `- \[(.*?)\]\((.*?)\)` tried at start index `p` (where `- [` stands).
   * The text group ends at the first `](` after the bracket and the target group at the first
   * `)` after that. A longer text group would end at a later `](`, but the target group from
   * there would meet the same line terminator or end of string that stopped the first attempt,
   * so backtracking into the text group never finds a match the first attempt missed.
   */
  function MatchAt(s: string, p: nat): (r: Option<Link>)
    requires OccursAt(s, "- [", p)
    ensures r.Some? ==> LinkTextSafe(r.value.text) && LinkTargetSafe(r.value.target)
  {
    match LazyUntil(s, p + 3, "](")
    case None => None
    case Some(q) =>
      match LazyUntil(s, q + 2, ")")
      case None => None
      case Some(e) =>
        LazyGroup(s, p + 3, q, "](");
        LazyGroup(s, q + 2, e, ")");
        var t := s[p + 3..q];
        var g := s[q + 2..e];
        assert ')' !in g by {
          forall j | 0 <= j < |g| ensures g[j] != ')' {
            CharAt(g, ')', j);
          }
        }
        Some(Link(t, g))
  }

  /** The leftmost start index at or after `p` from which the link pattern matches. */
  function MatchFrom(s: string, p: nat): (r: Option<Link>)
    ensures r.Some? ==> LinkTextSafe(r.value.text) && LinkTargetSafe(r.value.target)
    decreases |s| - p
  {
    if p + 3 > |s| then None
    else if OccursAt(s, "- [", p) && MatchAt(s, p).Some? then MatchAt(s, p)
    else MatchFrom(s, p + 1)
  }

  /** `s.match(/- \[(.*?)\]\((.*?)\)/)`: unanchored, first match, the two groups. */
  function MatchLink(s: string): (r: Option<Link>)
    ensures r.Some? ==> LinkTextSafe(r.value.text) && LinkTargetSafe(r.value.target)
  {
    MatchFrom(s, 0)
  }

  /** Inside a safe text no index starts a `](` or holds a line terminator. */
  lemma {:induction false} TextStretch(s: string, t: string, i: nat)
    requires LinkTextSafe(t)
    requires i + |t| + 2 <= |s| && s[i..i + |t|] == t && s[i + |t|] == ']' && s[i + |t| + 1] == '('
    ensures forall j :: i <= j < i + |t| ==> !IsLineTerminator(s[j]) && !OccursAt(s, "](", j)
  {
    forall j | i <= j < i + |t| ensures !IsLineTerminator(s[j]) && !OccursAt(s, "](", j) {
      assert s[j] == t[j - i];
      PairAt(s, ']', '(', j);
      if j + 1 < i + |t| {
        PairAt(t, ']', '(', j - i);
        assert s[j + 1] == t[j - i + 1];
      } else {
        assert s[j + 1] == ']';
      }
    }
  }

  /** Inside a safe target no index holds `)` or a line terminator. */
  lemma {:induction false} TargetStretch(s: string, g: string, i: nat)
    requires LinkTargetSafe(g)
    requires i + |g| <= |s| && s[i..i + |g|] == g
    ensures forall j :: i <= j < i + |g| ==> !IsLineTerminator(s[j]) && !OccursAt(s, ")", j)
  {
    forall j | i <= j < i + |g| ensures !IsLineTerminator(s[j]) && !OccursAt(s, ")", j) {
      assert s[j] == g[j - i];
      assert s[j..j + 1] == [g[j - i]];
    }
  }

  /** Where the pieces of a written link line stand. */
  lemma {:induction false} WrittenLinkSlices(t: string, g: string, tail: string)
    ensures var s, q := "- [" + t + "](" + g + ")" + tail, 3 + |t|;
            && |s| == q + 3 + |g| + |tail|
            && s[..3] == "- [" && s[3..q] == t && s[q..q + 2] == "]("
            && s[q + 2..q + 2 + |g|] == g && s[q + 2 + |g|..q + 3 + |g|] == ")"
            && s[q] == ']' && s[q + 1] == '('
            && OccursAt(s, "- [", 0) && OccursAt(s, "](", q) && OccursAt(s, ")", q + 2 + |g|)
  {
    var s, q := "- [" + t + "](" + g + ")" + tail, 3 + |t|;
    assert s[q..q + 2] == "](";
  }

  /** A line with `- [`, then `t`, then `](`, then `g`, then `)` at its start matches as `t` and `g`. */
  lemma {:induction false} MatchPlacedLink(s: string, t: string, g: string)
    requires LinkTextSafe(t) && LinkTargetSafe(g)
    requires var q := 3 + |t|;
             && q + 3 + |g| <= |s| && s[3..q] == t && s[q + 2..q + 2 + |g|] == g && s[q] == ']' && s[q + 1] == '('
             && OccursAt(s, "- [", 0) && OccursAt(s, "](", q) && OccursAt(s, ")", q + 2 + |g|)
    ensures MatchLink(s) == Some(Link(t, g))
  {
    var q := 3 + |t|;
    var e := q + 2 + |g|;
    TextStretch(s, t, 3);
    LazyUntilAt(s, 3, q, "](");
    TargetStretch(s, g, q + 2);
    LazyUntilAt(s, q + 2, e, ")");
    MatchAtFound(s, q, e);
    assert s[3..q] == t && s[q + 2..e] == g;
  }

  /** Where both lazy groups of a match at the start stop, the match is what lies between. */
  lemma {:induction false} MatchAtFound(s: string, q: nat, e: nat)
    requires OccursAt(s, "- [", 0)
    requires LazyUntil(s, 3, "](") == Some(q) && LazyUntil(s, q + 2, ")") == Some(e)
    ensures MatchLink(s) == Some(Link(s[3..q], s[q + 2..e]))
  {
    assert MatchAt(s, 0) == Some(Link(s[3..q], s[q + 2..e]));
  }

  /** A link written as `- [t](g)` reads back as exactly `t` and `g` when neither can end early. */
  lemma {:induction false} MatchWrittenLink(t: string, g: string, tail: string)
    requires LinkTextSafe(t) && LinkTargetSafe(g)
    ensures MatchLink("- [" + t + "](" + g + ")" + tail) == Some(Link(t, g))
  {
    WrittenLinkSlices(t, g, tail);
    MatchPlacedLink("- [" + t + "](" + g + ")" + tail, t, g);
  }

  /** The part of a path after its last `/`. */
  function LastSegment(p: string): (r: string)
    ensures '/' !in r
    ensures EndsWith(p, r)
    ensures |r| < |p| ==> p[|p| - |r| - 1] == '/'
    decreases |p|
  {
    if p == [] || p[|p| - 1] == '/' then []
    else
      var r := LastSegment(p[..|p| - 1]) + [p[|p| - 1]];
      assert p[..|p| - 1][|p| - |r|..] + [p[|p| - 1]] == p[|p| - |r|..];
      r
  }

  /**
   * `path.basename(linkPath, '.md')` on a `/`-separated path: the last segment, without a
   * trailing `.md` unless the segment is just `.md`; the whole path `.md` gives the empty id.
   */
  function BaseName(p: string): (r: string)
    ensures '/' !in r
  {
    var seg := LastSegment(p);
    if p == ".md" then ""
    else if EndsWith(seg, ".md") && |seg| > 3 then seg[..|seg| - 3]
    else seg
  }

  /** The last segment of `a/w` is `w` when `w` holds no `/`. */
  lemma {:induction false} LastSegmentAfterSlash(a: string, w: string)
    requires '/' !in w
    ensures LastSegment(a + "/" + w) == w
    decreases |w|
  {
    var p := a + "/" + w;
    if w == [] {
      assert p[|p| - 1] == '/';
    } else {
      var w' := w[..|w| - 1];
      assert p[..|p| - 1] == a + "/" + w';
      assert p[|p| - 1] == w[|w| - 1];
      assert '/' !in w' by {
        assert forall c :: c in w' ==> c in w;
      }
      LastSegmentAfterSlash(a, w');
      assert w' + [w[|w| - 1]] == w;
    }
  }

  /** The path `tasks/<id>.md` that `createTask` writes gives back the id, unless the id is empty. */
  lemma {:induction false} BaseNameOfTaskPath(id: string)
    requires id != [] && '/' !in id
    ensures BaseName("tasks/" + id + ".md") == id
  {
    var w := id + ".md";
    assert "tasks/" + id + ".md" == "tasks" + "/" + w;
    assert '/' !in w by {
      assert forall c :: c in w ==> c == '.' || c == 'm' || c == 'd' || c in id;
    }
    LastSegmentAfterSlash("tasks", w);
    assert w[|w| - 3..] == ".md";
    assert w[..|w| - 3] == id;
  }

  /** The characters an id keeps: `[a-z0-9]`. */
  predicate IsSlugChar(c: char) {
    ('a' <= c <= 'z') || ('0' <= c <= '9')
  }

  /** Only `[a-z0-9-]` characters. */
  predicate SlugAlphabet(s: string) {
    forall i :: 0 <= i < |s| ==> IsSlugChar(s[i]) || s[i] == '-'
  }

  /** No two hyphens side by side. */
  predicate NoDoubleHyphen(s: string) {
    forall i :: 0 <= i < |s| ==> !OccursAt(s, "--", i)
  }

  /** What a derived id looks like: `[a-z0-9-]` only, no `--`, no hyphen at either end. */
  predicate IsSlug(s: string) {
    SlugAlphabet(s) && NoDoubleHyphen(s) && (s != [] ==> s[0] != '-' && s[|s| - 1] != '-')
  }

  lemma {:induction false} NoDoubleHyphenSlice(s: string, a: nat, b: nat)
    requires a <= b <= |s| && NoDoubleHyphen(s)
    ensures NoDoubleHyphen(s[a..b])
  {
    forall i | 0 <= i < b - a ensures !OccursAt(s[a..b], "--", i) {
      OccursInSlice(s, a, b, "--", i);
    }
  }

  /** Drops the leading run of characters outside `[a-z0-9]`. */
  function SkipRun(s: string): (r: string)
    ensures |r| <= |s|
    ensures forall i :: 0 <= i < |s| - |r| ==> !IsSlugChar(s[i])
    ensures r != [] ==> IsSlugChar(r[0])
    decreases |s|
  {
    if s != [] && !IsSlugChar(s[0]) then SkipRun(s[1..]) else s
  }

  /** The `[a-z0-9]` characters of `s`, in order. */
  function SlugChars(s: string): string
    decreases |s|
  {
    if s == [] then [] else (if IsSlugChar(s[0]) then [s[0]] else []) + SlugChars(s[1..])
  }

  lemma {:induction false} SlugCharsSkipRun(s: string)
    ensures SlugChars(SkipRun(s)) == SlugChars(s)
    decreases |s|
  {
    if s != [] && !IsSlugChar(s[0]) {
      SlugCharsSkipRun(s[1..]);
    }
  }

  lemma {:induction false} SlugCharsAppend(a: string, b: string)
    ensures SlugChars(a + b) == SlugChars(a) + SlugChars(b)
    decreases |a|
  {
    if a == [] {
      assert a + b == b;
    } else {
      var x := if IsSlugChar(a[0]) then [a[0]] else [];
      assert (a + b)[0] == a[0] && (a + b)[1..] == a[1..] + b;
      assert SlugChars(a + b) == x + SlugChars(a[1..] + b);
      SlugCharsAppend(a[1..], b);
      StringAssoc(x, SlugChars(a[1..]), SlugChars(b));
    }
  }

  /** Putting one character before a string without `--` keeps it so unless both are hyphens. */
  lemma {:induction false} ConsNoDoubleHyphen(c: char, rest: string)
    requires NoDoubleHyphen(rest)
    requires c == '-' ==> rest == [] || rest[0] != '-'
    ensures NoDoubleHyphen([c] + rest)
  {
    var r := [c] + rest;
    forall i | 0 <= i < |r| ensures !OccursAt(r, "--", i) {
      if i == 0 {
        PairAt(r, '-', '-', 0);
      } else {
        OccursAtShift([c], rest, "--", i - 1);
      }
    }
  }

  /**
   * `replace(/[^a-z0-9]+/g, '-')`: each maximal run of other characters becomes one hyphen.
   * The result uses `[a-z0-9-]` only, never holds `--`, starts with a hyphen exactly when
   * the input starts with a character outside `[a-z0-9]`, and is empty only for the empty
   * input.
   */
  function CollapseRuns(s: string): (r: string)
    ensures SlugAlphabet(r) && NoDoubleHyphen(r)
    ensures (r != [] && r[0] == '-') <==> (s != [] && !IsSlugChar(s[0]))
    ensures r == [] <==> s == []
    decreases |s|
  {
    if s == [] then []
    else if IsSlugChar(s[0]) then
      var rest := CollapseRuns(s[1..]);
      var r := [s[0]] + rest;
      assert r[1..] == rest;
      ConsNoDoubleHyphen(s[0], rest);
      r
    else
      var t := SkipRun(s[1..]);
      var rest := CollapseRuns(t);
      var r := "-" + rest;
      assert r[1..] == rest;
      ConsNoDoubleHyphen('-', rest);
      r
  }

  /** The collapsing keeps every `[a-z0-9]` character of the input, in order. */
  lemma {:induction false} CollapseKeepsChars(s: string)
    ensures SlugChars(CollapseRuns(s)) == SlugChars(s)
    decreases |s|
  {
    if s != [] {
      var r := CollapseRuns(s);
      if IsSlugChar(s[0]) {
        CollapseKeepsChars(s[1..]);
        assert r[1..] == CollapseRuns(s[1..]);
      } else {
        var t := SkipRun(s[1..]);
        CollapseKeepsChars(t);
        SlugCharsSkipRun(s[1..]);
        assert r[1..] == CollapseRuns(t);
      }
    }
  }

  /** `replace(/^-|-$/g, '')`: one hyphen off the front and one off the back. */
  function StripEdgeHyphens(s: string): string {
    var t := if StartsWith(s, "-") then s[1..] else s;
    if EndsWith(t, "-") then t[..|t| - 1] else t
  }

  /** Stripping the edge hyphens keeps every `[a-z0-9]` character. */
  lemma {:induction false} StripKeepsChars(c: string)
    ensures SlugChars(StripEdgeHyphens(c)) == SlugChars(c)
  {
    var t := if StartsWith(c, "-") then c[1..] else c;
    assert SlugChars(t) == SlugChars(c) by {
      if StartsWith(c, "-") { assert c == "-" + t; }
    }
    var id := if EndsWith(t, "-") then t[..|t| - 1] else t;
    assert SlugChars(id) == SlugChars(t) by {
      if EndsWith(t, "-") { SlugCharsAppend(id, "-"); assert t == id + "-"; }
    }
  }

  /** A slice of a string of slug characters without `--` is one too. */
  lemma {:induction false} SlugPartSlice(s: string, a: nat, b: nat)
    requires a <= b <= |s| && SlugAlphabet(s) && NoDoubleHyphen(s)
    ensures SlugAlphabet(s[a..b]) && NoDoubleHyphen(s[a..b])
  {
    NoDoubleHyphenSlice(s, a, b);
    forall i | 0 <= i < b - a ensures IsSlugChar(s[a..b][i]) || s[a..b][i] == '-' {
      assert s[a..b][i] == s[a + i];
    }
  }

  /** Without its leading hyphen, a collapsed string starts with a slug character. */
  lemma {:induction false} StripFront(c: string)
    requires SlugAlphabet(c) && NoDoubleHyphen(c)
    ensures var t := if StartsWith(c, "-") then c[1..] else c;
            SlugAlphabet(t) && NoDoubleHyphen(t) && (t != [] ==> t[0] != '-')
  {
    if StartsWith(c, "-") {
      SlugPartSlice(c, 1, |c|);
      assert c[1..|c|] == c[1..];
      if |c| > 1 {
        PairAt(c, '-', '-', 0);
        assert c[..1][0] == c[0];
      }
    }
  }

  /** Without its trailing hyphen as well, it is a slug. */
  lemma {:induction false} StripBack(t: string)
    requires SlugAlphabet(t) && NoDoubleHyphen(t) && (t != [] ==> t[0] != '-')
    ensures IsSlug(if EndsWith(t, "-") then t[..|t| - 1] else t)
  {
    if EndsWith(t, "-") {
      var id := t[..|t| - 1];
      SlugPartSlice(t, 0, |t| - 1);
      assert t[0..|t| - 1] == id;
      if id != [] {
        PairAt(t, '-', '-', |t| - 2);
        assert t[|t| - 1] == "-"[0];
        assert id[0] == t[0] && id[|id| - 1] == t[|t| - 2];
      }
    }
  }

  /** Stripping the edge hyphens of a collapsed string leaves a slug. */
  lemma {:induction false} StripCollapsed(c: string)
    requires SlugAlphabet(c) && NoDoubleHyphen(c)
    ensures IsSlug(StripEdgeHyphens(c))
  {
    StripFront(c);
    StripBack(if StartsWith(c, "-") then c[1..] else c);
  }

  /**
   * The id `createTask` derives from a title:
   * `title.toLowerCase().replace(/[^a-z0-9]+/g, '-').replace(/^-|-$/g, '')`.
   * It is always slug-shaped.
   */
  function DeriveId(title: string): (id: string)
    ensures IsSlug(id)
  {
    var c := CollapseRuns(Lower(title));
    StripCollapsed(c);
    StripEdgeHyphens(c)
  }

  /** A derived id holds exactly the `[a-z0-9]` characters of the lower-cased title, in order. */
  lemma {:induction false} DeriveIdKeepsChars(title: string)
    ensures SlugChars(DeriveId(title)) == SlugChars(Lower(title))
  {
    CollapseKeepsChars(Lower(title));
    StripKeepsChars(CollapseRuns(Lower(title)));
  }

  /** A string of `[a-z0-9-]` without `--` passes through the collapsing unchanged. */
  lemma {:induction false} CollapseSlug(s: string)
    requires SlugAlphabet(s) && NoDoubleHyphen(s)
    ensures CollapseRuns(s) == s
    decreases |s|
  {
    if s != [] {
      NoDoubleHyphenSlice(s, 1, |s|);
      assert s[1..] == s[1..|s|];
      assert SlugAlphabet(s[1..]) by {
        forall i | 0 <= i < |s| - 1 ensures IsSlugChar(s[1..][i]) || s[1..][i] == '-' {
          assert s[1..][i] == s[i + 1];
        }
      }
      CollapseSlug(s[1..]);
      if !IsSlugChar(s[0]) {
        PairAt(s, '-', '-', 0);
        assert s[1..] == [] || IsSlugChar(s[1]);
      }
      assert s == [s[0]] + s[1..];
    }
  }

  /** An id that is already slug-shaped derives to itself. */
  lemma {:induction false} DeriveIdOfSlug(s: string)
    requires IsSlug(s)
    ensures DeriveId(s) == s
  {
    assert Lower(s) == s by {
      forall i | 0 <= i < |s| ensures LowerChar(s[i]) == s[i] {
        assert IsSlugChar(s[i]) || s[i] == '-';
      }
    }
    CollapseSlug(s);
    assert !StartsWith(s, "-") by {
      if s != [] { assert s[..1] == [s[0]]; }
    }
    assert !EndsWith(s, "-") by {
      if s != [] { assert s[|s| - 1..] == [s[|s| - 1]]; }
    }
  }

  /** Deriving an id from an id changes nothing. */
  lemma {:induction false} DeriveIdIdempotent(title: string)
    ensures DeriveId(DeriveId(title)) == DeriveId(title)
  {
    DeriveIdOfSlug(DeriveId(title));
  }

  /** A character of `[a-z0-9]` passes through the collapsing unchanged. */
  lemma {:induction false} CollapseCons(c: char, s: string)
    requires IsSlugChar(c)
    ensures CollapseRuns([c] + s) == [c] + CollapseRuns(s)
  {
    assert ([c] + s)[1..] == s;
  }

  /** A word of `[a-z0-9]` characters passes through the collapsing unchanged. */
  lemma {:induction false} CollapseWord(w: string, rest: string)
    requires forall i :: 0 <= i < |w| ==> IsSlugChar(w[i])
    ensures CollapseRuns(w + rest) == w + CollapseRuns(rest)
    decreases |w|
  {
    if w == [] {
      assert w + rest == rest;
    } else {
      var w' := w[1..];
      CollapseWord(w', rest);
      assert w + rest == [w[0]] + (w' + rest);
      CollapseCons(w[0], w' + rest);
      assert w == [w[0]] + w';
    }
  }

  // ---------------------------------------------------------------------------------------
  // Where the hyphens go: the id is the words of the lower-cased title joined by `-`

  /** A non-empty run of `[a-z0-9]` characters. */
  predicate IsWord(w: string) {
    w != [] && forall i :: 0 <= i < |w| ==> IsSlugChar(w[i])
  }

  /** The longest prefix of `s` made of `[a-z0-9]` characters. */
  function WordPrefix(s: string): (w: string)
    ensures |w| <= |s| && w == s[..|w|]
    ensures forall i :: 0 <= i < |w| ==> IsSlugChar(w[i])
    ensures |w| < |s| ==> !IsSlugChar(s[|w|])
    decreases |s|
  {
    if s != [] && IsSlugChar(s[0]) then
      var w := [s[0]] + WordPrefix(s[1..]);
      assert w[1..] == WordPrefix(s[1..]);
      w
    else []
  }

  /** The maximal runs of `[a-z0-9]` characters of `s`, in order. */
  function Words(s: string): (ws: seq<string>)
    ensures forall i :: 0 <= i < |ws| ==> IsWord(ws[i])
    decreases |s|
  {
    var t := SkipRun(s);
    if t == [] then []
    else
      var w := WordPrefix(t);
      [w] + Words(t[|w|..])
  }

  /** What the run skipping leaves is a suffix of the text. */
  lemma {:induction false} SkipRunSuffix(s: string)
    ensures SkipRun(s) == s[|s| - |SkipRun(s)|..]
    decreases |s|
  {
    if s != [] && !IsSlugChar(s[0]) {
      SkipRunSuffix(s[1..]);
      assert s[1..][|s| - 1 - |SkipRun(s[1..])|..] == s[|s| - |SkipRun(s)|..];
    } else {
      assert s[0..] == s;
    }
  }

  /** A run of other characters followed by a word or by nothing is skipped whole. */
  lemma {:induction false} SkipRunAll(sep: string, rest: string)
    requires forall i :: 0 <= i < |sep| ==> !IsSlugChar(sep[i])
    requires rest == [] || IsSlugChar(rest[0])
    ensures SkipRun(sep + rest) == rest
    decreases |sep|
  {
    if sep == [] {
      assert sep + rest == rest;
    } else {
      assert (sep + rest)[1..] == sep[1..] + rest;
      SkipRunAll(sep[1..], rest);
    }
  }

  /** A word, a run of other characters and then a word (or nothing): the run becomes one `-`. */
  lemma {:induction false} CollapseSep(w: string, sep: string, rest: string)
    requires IsWord(w)
    requires sep != [] && forall i :: 0 <= i < |sep| ==> !IsSlugChar(sep[i])
    requires rest == [] || IsSlugChar(rest[0])
    ensures CollapseRuns(w + sep + rest) == w + "-" + CollapseRuns(rest)
  {
    assert w + sep + rest == w + (sep + rest);
    CollapseWord(w, sep + rest);
    var u := sep + rest;
    assert u[0] == sep[0] && u[1..] == sep[1..] + rest;
    SkipRunAll(sep[1..], rest);
  }

  /** A text that starts with a word splits into its first word and what follows. */
  lemma {:induction false} WordsHead(s: string)
    requires s != [] && IsSlugChar(s[0])
    ensures SkipRun(s) == s
    ensures Words(s) == [WordPrefix(s)] + Words(s[|WordPrefix(s)|..])
  {
  }

  /** Skipping the leading run does not change the words. */
  lemma {:induction false} WordsSkipRun(s: string)
    ensures Words(SkipRun(s)) == Words(s)
  {
    var v := SkipRun(s);
    if v != [] {
      WordsHead(v);
    }
  }

  /** `-` when the text ends in a character outside `[a-z0-9]`. */
  function Trail(s: string): string {
    if s != [] && !IsSlugChar(s[|s| - 1]) then "-" else ""
  }

  /** One word joined in front of a non-empty list of words. */
  lemma {:induction false} JoinCons(w: string, ws: seq<string>)
    requires ws != []
    ensures JoinWith([w] + ws, "-") == w + "-" + JoinWith(ws, "-")
  {
    assert ([w] + ws)[1..] == ws;
  }

  /** A joined non-empty list of words starts and ends with a character of `[a-z0-9]`. */
  lemma {:induction false} JoinWordsEdges(ws: seq<string>)
    requires ws != [] && forall i :: 0 <= i < |ws| ==> IsWord(ws[i])
    ensures var j := JoinWith(ws, "-"); j != [] && IsSlugChar(j[0]) && IsSlugChar(j[|j| - 1])
    decreases |ws|
  {
    if |ws| > 1 {
      assert IsWord(ws[0]);
      JoinWordsEdges(ws[1..]);
      var j := JoinWith(ws[1..], "-");
      assert JoinWith(ws, "-") == ws[0] + "-" + j;
      assert (ws[0] + "-" + j)[0] == ws[0][0];
    } else {
      assert IsWord(ws[0]);
    }
  }

  /** A leading run of other characters collapses to one `-`. */
  lemma {:induction false} CollapseSkip(u: string)
    requires u != [] && !IsSlugChar(u[0])
    ensures CollapseRuns(u) == "-" + CollapseRuns(SkipRun(u))
    ensures |SkipRun(u)| < |u|
  {
  }

  /** A text made of one word collapses to itself. */
  lemma {:induction false} CollapseOneWord(w: string)
    requires IsWord(w)
    ensures CollapseRuns(w) == w && Trail(w) == ""
    ensures Words(w) == [w]
  {
    CollapseWord(w, []);
    assert w + [] == w;
    WordsHead(w);
    assert WordPrefix(w) == w;
    assert w[|w|..] == [];
  }

  /** A word followed only by other characters collapses to the word and one `-`. */
  lemma {:induction false} CollapseWordTail(w: string, u: string)
    requires IsWord(w) && u != [] && SkipRun(u) == []
    ensures CollapseRuns(w + u) == w + "-"
    ensures Trail(w + u) == "-"
  {
    CollapseWord(w, u);
    CollapseSkip(u);
    assert !IsSlugChar(u[|u| - 1]);
    assert (w + u)[|w + u| - 1] == u[|u| - 1];
  }

  /** For a text that starts with a word (or is empty) the collapsing gives its words joined
    * by `-`, and one more `-` for a trailing run. */
  lemma {:induction false} CollapseWords(s: string)
    requires s == [] || IsSlugChar(s[0])
    ensures CollapseRuns(s) == JoinWith(Words(s), "-") + Trail(s)
    decreases |s|
  {
    if s != [] {
      WordsHead(s);
      var w := WordPrefix(s);
      var u := s[|w|..];
      assert s == w + u;
      if u == [] {
        assert s == w;
        CollapseOneWord(w);
      } else {
        WordsSkipRun(u);
        if SkipRun(u) == [] {
          CollapseWordTail(w, u);
        } else {
          CollapseWordsStep(w, u);
        }
      }
    }
  }

  /** The step of `CollapseWords`: a word, a run, and the rest of the text. */
  lemma {:induction false} CollapseWordsStep(w: string, u: string)
    requires IsWord(w) && u != [] && !IsSlugChar(u[0]) && SkipRun(u) != []
    ensures CollapseRuns(w + u) == JoinWith([w] + Words(u), "-") + Trail(w + u)
    decreases |u|, 0
  {
    var v := SkipRun(u);
    var j := JoinWith(Words(v), "-");
    CollapseWord(w, u);
    CollapseSkip(u);
    CollapseWords(v);
    assert CollapseRuns(w + u) == w + ("-" + (j + Trail(v)));
    StringAssoc("-", j, Trail(v));
    StringAssoc(w, "-" + j, Trail(v));
    StringAssoc(w, "-", j);
    WordsSkipRun(u);
    WordsHead(v);
    JoinCons(w, Words(v));
    TrailSuffix(w, u);
  }

  /** The trailing run of `w + u` is that of what follows `u`'s leading run. */
  lemma {:induction false} TrailSuffix(w: string, u: string)
    requires SkipRun(u) != []
    ensures Trail(w + u) == Trail(SkipRun(u))
  {
    var v := SkipRun(u);
    SkipRunSuffix(u);
    assert (w + u)[|w + u| - 1] == u[|u| - 1] == v[|v| - 1];
  }

  /** The leading-hyphen trim takes off `lead` and nothing else. */
  lemma {:induction false} DropLead(lead: string, x: string)
    requires lead == "-" || (lead == "" && (x == [] || x[0] != '-'))
    ensures (if StartsWith(lead + x, "-") then (lead + x)[1..] else lead + x) == x
  {
    if lead == "-" {
      assert (lead + x)[..1] == "-" && (lead + x)[1..] == x;
    } else {
      assert lead + x == x;
      assert x != [] ==> x[..1][0] == x[0];
    }
  }

  /** The trailing-hyphen trim takes off `trail` and nothing else. */
  lemma {:induction false} DropTrail(x: string, trail: string)
    requires trail == "-" || (trail == "" && (x == [] || x[|x| - 1] != '-'))
    ensures var t := x + trail; (if EndsWith(t, "-") then t[..|t| - 1] else t) == x
  {
    var t := x + trail;
    if trail == "-" {
      assert t[|t| - 1] == '-' && t[..|t| - 1] == x;
    } else {
      assert t == x;
      assert x != [] ==> !(x[|x| - 1 + 0] == "-"[0]);
    }
  }

  /** Trimming edge hyphens: one `-` on each side of a joined list of words goes away. */
  lemma {:induction false} StripFramed(lead: string, j: string, trail: string)
    requires lead == "" || lead == "-"
    requires trail == "" || trail == "-"
    requires j == [] ==> trail == ""
    requires j != [] ==> j[0] != '-' && j[|j| - 1] != '-'
    ensures StripEdgeHyphens(lead + j + trail) == j
  {
    StringAssoc(lead, j, trail);
    assert j != [] ==> (j + trail)[0] == j[0];
    DropLead(lead, j + trail);
    DropTrail(j, trail);
  }

  /** Any text collapses to its words joined by `-`, framed by one `-` for a leading run and
    * one for a trailing run (a text with no word at all collapses to at most one `-`). */
  lemma {:induction false} CollapseFramed(s: string)
    ensures var j := JoinWith(Words(s), "-");
            var lead := if s != [] && !IsSlugChar(s[0]) then "-" else "";
            var trail := Trail(SkipRun(s));
            && CollapseRuns(s) == lead + j + trail
            && (j == [] ==> trail == "")
            && (j != [] ==> IsSlugChar(j[0]) && IsSlugChar(j[|j| - 1]))
  {
    var v := SkipRun(s);
    CollapseWords(v);
    WordsSkipRun(s);
    if v != [] {
      WordsHead(v);
      JoinWordsEdges(Words(v));
    }
    if s != [] && !IsSlugChar(s[0]) {
      CollapseSkip(s);
      StringAssoc("-", JoinWith(Words(v), "-"), Trail(v));
    } else {
      assert v == s;
      assert "" + JoinWith(Words(v), "-") == JoinWith(Words(v), "-");
    }
  }

  /** The id is the words of the lower-cased title, the maximal runs of `[a-z0-9]`, joined
    * by `-`. */
  lemma {:induction false} DeriveIdWords(title: string)
    ensures DeriveId(title) == JoinWith(Words(Lower(title)), "-")
  {
    var s := Lower(title);
    CollapseFramed(s);
    var j := JoinWith(Words(s), "-");
    StripFramed(if s != [] && !IsSlugChar(s[0]) then "-" else "", j, Trail(SkipRun(s)));
  }

  /** The title's characters, lower-cased. */
  lemma {:induction false} LowerMyNewTask()
    ensures Lower("My New Task") == "my new task"
  {
    var s := Lower("My New Task");
    assert s[0] == 'm' && s[3] == 'n' && s[7] == 't';
  }

  lemma {:induction false} MyNewTaskPieces()
    ensures "my new task" == "my" + " " + ("new" + " " + "task")
    ensures "my" + "-" + ("new" + "-" + "task") == "my-new-task"
  {
  }

  /** Three words between single spaces: each space becomes a hyphen. */
  lemma {:induction false} CollapseThreeWords(a: string, b: string, c: string)
    requires IsWord(a) && IsWord(b) && IsWord(c)
    ensures CollapseRuns(a + " " + (b + " " + c)) == a + "-" + (b + "-" + c)
  {
    CollapseSep(a, " ", b + " " + c);
    CollapseSep(b, " ", c);
    CollapseOneWord(c);
  }

  /** The two spaces become hyphens. */
  lemma {:induction false} CollapseMyNewTask()
    ensures CollapseRuns("my new task") == "my-new-task"
  {
    MyNewTaskPieces();
    assert IsWord("my") && IsWord("new") && IsWord("task");
    CollapseThreeWords("my", "new", "task");
  }

  /** `createTask` on the title `My New Task` writes `my-new-task.md`. */
  lemma {:induction false} DeriveIdMyNewTask()
    ensures DeriveId("My New Task") == "my-new-task"
  {
    LowerMyNewTask();
    CollapseMyNewTask();
    var c := "my-new-task";
    DropLead("", c);
    assert "" + c == c;
    DropTrail(c, "");
    assert c + "" == c;
  }
}
