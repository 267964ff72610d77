/**
 * The JavaScript string primitives the engine is written with: `trim`, `startsWith`,
 * `includes`, `replace` with a string pattern, `split('\n')`, `join`, ASCII `toLowerCase`
 * and `substring(0, n)`. Strings are Dafny strings (sequences of Unicode scalar values);
 * lengths and cuts count UTF-16 code units, as JavaScript does.
 */
module Text {
  import opened Wrappers

  /** The characters `String.prototype.trim` removes and `\s` matches:
    * ECMAScript WhiteSpace (including the Zs space separators) and LineTerminator. */
  predicate IsSpace(c: char) {
    || c == ' ' || c == '\t' || c == '\n' || c == '\r' || c == '\U{000B}' || c == '\U{000C}'
    || c == '\U{00A0}' || c == '\U{1680}' || ('\U{2000}' <= c <= '\U{200A}')
    || c == '\U{2028}' || c == '\U{2029}' || c == '\U{202F}' || c == '\U{205F}'
    || c == '\U{3000}' || c == '\U{FEFF}'
  }

  /** The characters the regular-expression atom `.` does not match. */
  predicate IsLineTerminator(c: char) {
    c == '\n' || c == '\r' || c == '\U{2028}' || c == '\U{2029}'
  }

  predicate NoLineTerminator(s: string) {
    forall i :: 0 <= i < |s| ==> !IsLineTerminator(s[i])
  }

  predicate AllSpace(s: string) {
    forall i :: 0 <= i < |s| ==> IsSpace(s[i])
  }

  /** No leading and no trailing white space: what `trim` leaves unchanged. */
  predicate Trimmed(s: string) {
    s == [] || (!IsSpace(s[0]) && !IsSpace(s[|s| - 1]))
  }

  /** `trimStart`: drops the longest all-space prefix. */
  function TrimStart(s: string): (r: string)
    ensures |r| <= |s|
    ensures AllSpace(s[..|s| - |r|])
    ensures r != [] ==> !IsSpace(r[0])
    decreases |s|
  {
    if |s| > 0 && IsSpace(s[0]) then
      var r := TrimStart(s[1..]);
      assert s[..|s| - |r|] == [s[0]] + s[1..][..|s| - 1 - |r|];
      r
    else s
  }

  /** `trimStart` keeps a suffix of its input. */
  lemma {:induction false} TrimStartSuffix(s: string)
    ensures TrimStart(s) == s[|s| - |TrimStart(s)|..]
    decreases |s|
  {
    if |s| > 0 && IsSpace(s[0]) {
      TrimStartSuffix(s[1..]);
    }
  }

  /** `trimEnd`: drops the longest all-space suffix. */
  function TrimEnd(s: string): (r: string)
    ensures |r| <= |s| && r == s[..|r|]
    ensures AllSpace(s[|r|..])
    ensures r != [] ==> !IsSpace(r[|r| - 1])
    decreases |s|
  {
    if |s| > 0 && IsSpace(s[|s| - 1]) then
      var r := TrimEnd(s[..|s| - 1]);
      assert s[|r|..] == s[..|s| - 1][|r|..] + [s[|s| - 1]];
      r
    else s
  }

  /** `trim`: both ends. The result is empty exactly when the input is all white space,
    * otherwise it starts and ends with a non-space character taken from the input. */
  function Trim(s: string): (r: string)
    ensures |r| <= |s| && Trimmed(r)
    ensures r == [] <==> AllSpace(s)
    ensures forall c :: c in r ==> c in s
  {
    var e := TrimEnd(s);
    var r := TrimStart(e);
    TrimStartSuffix(e);
    assert r == [] ==> AllSpace(s) by {
      if r == [] {
        assert e[..|e| - |r|] == e;
        assert s[|e|..] == s;
      }
    }
    assert r != [] ==> !IsSpace(r[|r| - 1]) by {
      if r != [] { assert r[|r| - 1] == e[|e| - 1]; }
    }
    assert forall c :: c in r ==> c in s by {
      forall c | c in r ensures c in s {
        var k :| 0 <= k < |r| && r[k] == c;
        assert e[|e| - |r| + k] == c;
        assert s[|e| - |r| + k] == c;
      }
    }
    r
  }

  lemma {:induction false} TrimOfTrimmed(s: string)
    requires Trimmed(s)
    ensures Trim(s) == s
  {
  }

  /** A slice holds only characters of the string it is cut from. */
  lemma {:induction false} InSlice(s: string, a: nat, b: nat, c: char)
    requires a <= b <= |s|
    ensures c in s[a..b] ==> c in s
  {
    if c in s[a..b] {
      var k :| 0 <= k < b - a && s[a..b][k] == c;
      assert s[a + k] == c;
    }
  }

  /** Leading white space never survives `trimStart`. */
  lemma {:induction false} TrimStartSkips(ws: string, s: string)
    requires AllSpace(ws)
    ensures TrimStart(ws + s) == TrimStart(s)
    decreases |ws|
  {
    if ws != [] {
      var t := ws + s;
      assert t[0] == ws[0] && IsSpace(t[0]);
      assert TrimStart(t) == TrimStart(t[1..]);
      assert t[1..] == ws[1..] + s;
      TrimStartSkips(ws[1..], s);
    } else {
      assert ws + s == s;
    }
  }

  /** Trailing white space never survives `trimEnd`. */
  lemma {:induction false} TrimEndSkips(s: string, ws: string)
    requires AllSpace(ws)
    ensures TrimEnd(s + ws) == TrimEnd(s)
    decreases |ws|
  {
    if ws != [] {
      var t := s + ws;
      assert t[|t| - 1] == ws[|ws| - 1] && IsSpace(t[|t| - 1]);
      assert TrimEnd(t) == TrimEnd(t[..|t| - 1]);
      assert t[..|t| - 1] == s + ws[..|ws| - 1];
      TrimEndSkips(s, ws[..|ws| - 1]);
    } else {
      assert s + ws == s;
    }
  }

  /** `trimEnd` of a concatenation only touches the second part when that part is not all space. */
  lemma {:induction false} TrimEndConcat(a: string, b: string)
    requires TrimEnd(b) != []
    ensures TrimEnd(a + b) == a + TrimEnd(b)
    decreases |b|
  {
    if IsSpace(b[|b| - 1]) {
      assert (a + b)[..|a + b| - 1] == a + b[..|b| - 1];
      TrimEndConcat(a, b[..|b| - 1]);
    }
  }

  /** `trimStart` of a concatenation only touches the first part when that part is not all space. */
  lemma {:induction false} TrimStartConcat(a: string, b: string)
    requires TrimStart(a) != []
    ensures TrimStart(a + b) == TrimStart(a) + b
    decreases |a|
  {
    if IsSpace(a[0]) {
      assert (a + b)[1..] == a[1..] + b;
      TrimStartConcat(a[1..], b);
    }
  }

  /** `trimEnd` leaves nothing only of a string of white space. */
  lemma {:induction false} TrimEndBlank(s: string)
    requires TrimEnd(s) == []
    ensures AllSpace(s)
  {
    assert s[|TrimEnd(s)|..] == s;
  }

  /** A prefix without white space at its start and a non-blank rest: `trim` only trims the rest's end. */
  lemma {:induction false} TrimAfterPrefix(p: string, s: string)
    requires p != [] && !IsSpace(p[0]) && TrimEnd(s) != []
    ensures Trim(p + s) == p + TrimEnd(s)
  {
    TrimEndConcat(p, s);
  }

  /** A line made of white space, then a non-blank trimmed text, trims to that text. */
  lemma {:induction false} TrimIndented(ws: string, s: string)
    requires AllSpace(ws) && Trimmed(s)
    ensures Trim(ws + s) == s
  {
    if s == [] {
      assert ws + s == ws;
      assert AllSpace(ws + s);
    } else {
      assert TrimEnd(ws + s) == ws + s;
      TrimStartSkips(ws, s);
    }
  }

  predicate StartsWith(s: string, p: string) {
    |p| <= |s| && s[..|p|] == p
  }

  predicate EndsWith(s: string, p: string) {
    |p| <= |s| && forall i :: 0 <= i < |p| ==> s[|s| - |p| + i] == p[i]
  }

  /** `p` occurs in `s` at index `i`. */
  predicate OccursAt(s: string, p: string, i: nat) {
    i + |p| <= |s| && s[i..i + |p|] == p
  }

  /** A two-character pattern occurs where its two characters stand. */
  lemma {:induction false} PairAt(s: string, a: char, b: char, i: nat)
    ensures OccursAt(s, [a, b], i) <==> (i + 2 <= |s| && s[i] == a && s[i + 1] == b)
  {
    if i + 2 <= |s| {
      assert s[i..i + 2] == [s[i], s[i + 1]];
    }
  }

  /** A one-character pattern occurs where that character stands. */
  lemma {:induction false} CharAt(s: string, a: char, i: nat)
    ensures OccursAt(s, [a], i) <==> (i < |s| && s[i] == a)
  {
    if i < |s| {
      assert s[i..i + 1] == [s[i]];
    }
  }

  /** Occurrences in the second part of a concatenation are occurrences in that part. */
  lemma {:induction false} OccursAtShift(x: string, y: string, p: string, i: nat)
    ensures OccursAt(x + y, p, |x| + i) <==> OccursAt(y, p, i)
  {
    if i + |p| <= |y| {
      assert (x + y)[|x| + i..|x| + i + |p|] == y[i..i + |p|];
    }
  }

  /** Occurrences inside a slice are occurrences in the whole string. */
  lemma {:induction false} OccursInSlice(s: string, a: nat, b: nat, p: string, i: nat)
    requires a <= b <= |s|
    ensures OccursAt(s[a..b], p, i) ==> OccursAt(s, p, a + i)
  {
    if i + |p| <= b - a {
      var x, y := s[a..b][i..i + |p|], s[a + i..a + i + |p|];
      assert forall k :: 0 <= k < |p| ==> x[k] == y[k];
      assert x == y;
    }
  }

  /** Occurrences that end inside the first part of a concatenation are occurrences in that part. */
  lemma {:induction false} OccursInPrefix(x: string, y: string, p: string, i: nat)
    requires i + |p| <= |x|
    ensures OccursAt(x + y, p, i) <==> OccursAt(x, p, i)
  {
    assert (x + y)[i..i + |p|] == x[i..i + |p|];
  }

  /** `indexOf(p, i)`: the first occurrence of `p` at or after `i`. */
  function IndexOfFrom(s: string, p: string, i: nat): (r: Option<nat>)
    ensures r.Some? ==> i <= r.value && OccursAt(s, p, r.value)
    ensures r.Some? ==> forall j :: i <= j < r.value ==> !OccursAt(s, p, j)
    ensures r.None? ==> forall j :: i <= j ==> !OccursAt(s, p, j)
    decreases |s| - i
  {
    if i + |p| > |s| then None
    else if OccursAt(s, p, i) then Some(i)
    else IndexOfFrom(s, p, i + 1)
  }

  /** `includes(p)`. */
  predicate Contains(s: string, p: string) {
    IndexOfFrom(s, p, 0).Some?
  }

  lemma {:induction false} ContainsIff(s: string, p: string)
    ensures Contains(s, p) <==> exists j :: OccursAt(s, p, j)
  {
    if Contains(s, p) {
      assert OccursAt(s, p, IndexOfFrom(s, p, 0).value);
    }
  }

  /** `replace(p, repl)` with a string pattern: only the first occurrence is replaced. */
  function ReplaceFirst(s: string, p: string, repl: string): (r: string)
    ensures !Contains(s, p) ==> r == s
  {
    match IndexOfFrom(s, p, 0)
    case None => s
    case Some(i) => s[..i] + repl + s[i + |p|..]
  }

  /** Removing the first occurrence of `p` when it stands at index `i`. */
  lemma {:induction false} ReplaceFirstAt(s: string, p: string, i: nat)
    requires OccursAt(s, p, i)
    requires forall j :: 0 <= j < i ==> !OccursAt(s, p, j)
    ensures ReplaceFirst(s, p, "") == s[..i] + s[i + |p|..]
  {
    var r := IndexOfFrom(s, p, 0);
    assert r.Some?;
    assert !(r.value < i) && !(i < r.value);
  }

  function LowerChar(c: char): char {
    if 'A' <= c <= 'Z' then (c as int + 32) as char else c
  }

  /** `toLowerCase`, on the ASCII letters only. */
  function Lower(s: string): (r: string)
    ensures |r| == |s|
    ensures forall i :: 0 <= i < |s| ==> r[i] == LowerChar(s[i])
  {
    seq(|s|, i requires 0 <= i < |s| => LowerChar(s[i]))
  }

  /** `Array.prototype.join(sep)`. */
  function JoinWith(ls: seq<string>, sep: string): string
    decreases |ls|
  {
    if |ls| == 0 then ""
    else if |ls| == 1 then ls[0]
    else ls[0] + sep + JoinWith(ls[1..], sep)
  }

  /** `split('\n')`: the pieces between line feeds. There is always at least one piece,
    * no piece holds a line feed, and joining the pieces with line feeds gives back the text. */
  function SplitLines(s: string): (r: seq<string>)
    ensures |r| >= 1
    ensures forall i :: 0 <= i < |r| ==> '\n' !in r[i]
    ensures JoinWith(r, "\n") == s
    decreases |s|
  {
    if s == [] then [[]]
    else if s[0] == '\n' then
      var rest := SplitLines(s[1..]);
      assert s == "\n" + s[1..];
      [[]] + rest
    else
      var rest := SplitLines(s[1..]);
      var r := [[s[0]] + rest[0]] + rest[1..];
      assert s == [s[0]] + s[1..];
      assert |rest| > 1 ==> rest == [rest[0]] + rest[1..];
      assert forall i :: 1 <= i < |r| ==> r[i] == rest[i];
      r
  }

  /** Lines each followed by a line feed: what writing `line + '\n'` in a loop produces. */
  function Unlines(ls: seq<string>): string
    decreases |ls|
  {
    if ls == [] then "" else ls[0] + "\n" + Unlines(ls[1..])
  }

  lemma {:induction false} UnlinesAppend(a: seq<string>, b: seq<string>)
    ensures Unlines(a + b) == Unlines(a) + Unlines(b)
    decreases |a|
  {
    if a != [] {
      assert (a + b)[0] == a[0] && (a + b)[1..] == a[1..] + b;
      UnlinesAppend(a[1..], b);
      calc {
        Unlines(a + b);
        a[0] + "\n" + Unlines(a[1..] + b);
        a[0] + "\n" + (Unlines(a[1..]) + Unlines(b));
        (a[0] + "\n" + Unlines(a[1..])) + Unlines(b);
      }
    } else {
      assert a + b == b;
    }
  }

  lemma {:induction false} UnlinesSnoc(a: seq<string>, l: string)
    ensures Unlines(a + [l]) == Unlines(a) + l + "\n"
  {
    UnlinesAppend(a, [l]);
    assert Unlines([l]) == l + "\n" + Unlines([]);
  }

  lemma {:induction false} UnlinesPair(a: seq<string>, l1: string, l2: string)
    ensures Unlines(a + [l1, l2]) == Unlines(a) + (l1 + "\n" + l2 + "\n")
  {
    UnlinesAppend(a, [l1, l2]);
    assert [l1, l2][1..] == [l2] && [l2][1..] == [];
    assert Unlines([l1, l2]) == l1 + "\n" + (l2 + "\n" + Unlines([]));
  }

  lemma {:induction false} StringAssoc(x: string, y: string, z: string)
    ensures x + (y + z) == x + y + z
  {
  }

  /** A heading written as one piece of text with its blank line. */
  lemma {:induction false} UnlinesHeading(before: seq<string>, h: string, text: string)
    requires text == h + "\n\n"
    ensures Unlines(before + [h, ""]) == Unlines(before) + text
  {
    UnlinesPair(before, h, "");
  }

  /** A section closed by a blank line: the text so far, then one more line feed. */
  lemma {:induction false} UnlinesClosed(before: seq<string>, h: string, lines: seq<string>)
    ensures Unlines(before + ([h, ""] + lines + [""])) == Unlines(before + [h, ""] + lines) + "\n"
  {
    assert before + ([h, ""] + lines + [""]) == (before + [h, ""] + lines) + [""];
    UnlinesSnoc(before + [h, ""] + lines, "");
  }

  lemma {:induction false} LinesAssoc(a: seq<string>, b: seq<string>, c: seq<string>)
    ensures a + (b + c) == a + b + c
  {
  }

  lemma {:induction false} SplitLinesCons(l: string, t: string)
    requires '\n' !in l
    ensures SplitLines(l + "\n" + t) == [l] + SplitLines(t)
    decreases |l|
  {
    var s := l + "\n" + t;
    if l == [] {
      assert s == "\n" + t && s[1..] == t;
    } else {
      assert s[0] == l[0] && s[1..] == l[1..] + "\n" + t;
      SplitLinesCons(l[1..], t);
      assert [s[0]] + l[1..] == l;
    }
  }

  /** A text without a line feed is one piece. */
  lemma {:induction false} SplitLinesSingle(l: string)
    requires '\n' !in l
    ensures SplitLines(l) == [l]
    decreases |l|
  {
    if l != [] {
      assert l[0] in l;
      assert forall c :: c in l[1..] ==> c in l;
      SplitLinesSingle(l[1..]);
      assert [l[0]] + l[1..] == l;
    }
  }

  /** Splitting lines joined by line feeds gives the lines back. */
  lemma {:induction false} SplitJoin(ls: seq<string>)
    requires |ls| >= 1 && forall i :: 0 <= i < |ls| ==> '\n' !in ls[i]
    ensures SplitLines(JoinWith(ls, "\n")) == ls
    decreases |ls|
  {
    if |ls| == 1 {
      SplitLinesSingle(ls[0]);
    } else {
      SplitJoin(ls[1..]);
      SplitLinesCons(ls[0], JoinWith(ls[1..], "\n"));
      assert ls == [ls[0]] + ls[1..];
    }
  }

  /** Splitting text written line by line gives the lines back, then the empty piece after the last line feed. */
  lemma {:induction false} SplitUnlines(ls: seq<string>)
    requires forall i :: 0 <= i < |ls| ==> '\n' !in ls[i]
    ensures SplitLines(Unlines(ls)) == ls + [""]
    decreases |ls|
  {
    if ls == [] {
    } else {
      SplitUnlines(ls[1..]);
      SplitLinesCons(ls[0], Unlines(ls[1..]));
      assert ls == [ls[0]] + ls[1..];
    }
  }

  lemma {:induction false} UnlinesJoin(ls: seq<string>)
    requires |ls| >= 1
    ensures Unlines(ls) == JoinWith(ls, "\n") + "\n"
    decreases |ls|
  {
    if |ls| > 1 {
      UnlinesJoin(ls[1..]);
    }
  }

  /** A block of text written with one trailing line feed is the same as its lines written one by one. */
  lemma {:induction false} UnlinesSplit(s: string)
    ensures Unlines(SplitLines(s)) == s + "\n"
  {
    UnlinesJoin(SplitLines(s));
  }

  /** How many UTF-16 code units JavaScript stores for `c`: two for a character beyond the
    * Basic Multilingual Plane (a surrogate pair), one otherwise. */
  function CodeUnits(c: char): (r: nat)
    ensures r == 1 || r == 2
  {
    if c as int < 0x1_0000 then 1 else 2
  }

  /** `length`: the number of UTF-16 code units of `s`. */
  function Utf16Length(s: string): (r: nat)
    ensures |s| <= r <= 2 * |s|
    decreases |s|
  {
    if s == [] then 0 else Utf16Length(s[..|s| - 1]) + CodeUnits(s[|s| - 1])
  }

  /** A prefix takes no more code units than the whole. */
  lemma {:induction false} Utf16Prefix(s: string, k: nat)
    requires k <= |s|
    ensures Utf16Length(s[..k]) <= Utf16Length(s)
    decreases |s|
  {
    if k < |s| {
      var init := s[..|s| - 1];
      Utf16Prefix(init, k);
      assert init[..k] == s[..k];
    } else {
      assert s[..k] == s;
    }
  }

  /** How many characters after the first `k` still fit in `n` code units. */
  function FitFrom(s: string, n: nat, k: nat): (r: nat)
    requires k <= |s| && Utf16Length(s[..k]) <= n
    ensures k <= r <= |s| && Utf16Length(s[..r]) <= n
    ensures r < |s| ==> Utf16Length(s[..r + 1]) > n
    decreases |s| - k
  {
    if k == |s| then k
    else
      var next := Utf16Length(s[..k + 1]);
      if next > n then k else FitFrom(s, n, k + 1)
  }

  /** `substring(0, n)`: the longest prefix of `s` that fits in `n` UTF-16 code units. */
  function Truncate(s: string, n: nat): (r: string)
    ensures |r| <= |s| && r == s[..|r|]
    ensures Utf16Length(r) <= n
    ensures |r| < |s| ==> Utf16Length(s[..|r| + 1]) > n
    ensures Utf16Length(s) <= n ==> r == s
  {
    var k := FitFrom(s, n, 0);
    if k < |s| then
      Utf16Prefix(s, k + 1);
      s[..k]
    else
      s[..k]
  }

  // ---------------------------------------------------------------------------------------
  // A line-by-line loop

  /** The state a loop reaches from `st` by taking `step` on each of `lines[i..]` in turn. */
  function ScanFrom<S>(step: (S, string) -> S, st: S, lines: seq<string>, i: nat): S
    decreases |lines| - i
  {
    if i >= |lines| then st else ScanFrom(step, step(st, lines[i]), lines, i + 1)
  }

  /** The state a loop reaches from `st` by taking `step` on each line in turn. */
  function Scan<S>(step: (S, string) -> S, st: S, lines: seq<string>): S {
    ScanFrom(step, st, lines, 0)
  }

  /** Past the end of `a`, the scan of `a + b` is the scan of `b`. */
  lemma {:induction false} ScanFromShift<S>(step: (S, string) -> S, st: S, a: seq<string>, b: seq<string>, j: nat)
    requires j <= |b|
    ensures ScanFrom(step, st, a + b, |a| + j) == ScanFrom(step, st, b, j)
    decreases |b| - j
  {
    if j < |b| {
      assert (a + b)[|a| + j] == b[j];
      ScanFromShift(step, step(st, b[j]), a, b, j + 1);
    }
  }

  lemma {:induction false} ScanFromAppend<S>(step: (S, string) -> S, st: S, a: seq<string>, b: seq<string>, i: nat)
    requires i <= |a|
    ensures ScanFrom(step, st, a + b, i) == ScanFrom(step, ScanFrom(step, st, a, i), b, 0)
    decreases |a| - i
  {
    if i == |a| {
      ScanFromShift(step, st, a, b, 0);
    } else {
      assert (a + b)[i] == a[i];
      ScanFromAppend(step, step(st, a[i]), a, b, i + 1);
    }
  }

  /** Scanning two runs of lines is scanning the first and then the second from there. */
  lemma {:induction false} ScanAppend<S>(step: (S, string) -> S, st: S, a: seq<string>, b: seq<string>)
    ensures Scan(step, st, a + b) == Scan(step, Scan(step, st, a), b)
  {
    ScanFromAppend(step, st, a, b, 0);
  }

  lemma {:induction false} ScanOne<S>(step: (S, string) -> S, st: S, l: string)
    ensures Scan(step, st, [l]) == step(st, l)
  {
    assert ScanFrom(step, step(st, l), [l], 1) == step(st, l);
  }
}
