/** The diff of a file edit's old and new text, by lines: a longest common subsequence is context, the rest is removed
    or added. Very large inputs are replaced whole. */
module Diff {
  type Line = string

  // ---- lines ----

  function Split(text: string): (lines: seq<Line>)
    ensures |lines| >= 1
  {
    if text == "" then [""]
    else
      var rest := Split(text[1..]);
      if text[0] == '\n' then [""] + rest else [[text[0]] + rest[0]] + rest[1..]
  }

  function Join(lines: seq<Line>): string
    requires |lines| >= 1
  {
    if |lines| == 1 then lines[0] else lines[0] + "\n" + Join(lines[1..])
  }

  predicate OneLine(line: Line) { '\n' !in line }

  predicate AllLines(lines: seq<Line>) { forall i :: 0 <= i < |lines| ==> OneLine(lines[i]) }

  lemma {:induction false} SplitLines(text: string)
    ensures AllLines(Split(text)) && Join(Split(text)) == text
  {
    if text != "" {
      SplitLines(text[1..]);
      var rest := Split(text[1..]);
      assert text == [text[0]] + text[1..];
      if text[0] != '\n' && |rest| > 1 {
        assert Split(text)[1..] == rest[1..];
        assert Join(rest) == rest[0] + "\n" + Join(rest[1..]);
      }
    }
  }

  lemma {:induction false} SplitOne(line: Line)
    requires OneLine(line)
    ensures Split(line) == [line]
  {
    if line != "" {
      SplitOne(line[1..]);
      assert line == [line[0]] + line[1..];
    }
  }

  lemma {:induction false} SplitConcat(x: string, y: string)
    ensures Split(x + "\n" + y) == Split(x) + Split(y)
  {
    var whole := x + "\n" + y;
    if x == "" {
      assert whole[0] == '\n' && whole[1..] == y;
    } else {
      assert whole[0] == x[0] && whole[1..] == x[1..] + "\n" + y;
      SplitConcat(x[1..], y);
      PutMore(x[0], Split(x[1..]), Split(y));
      assert Split(whole) == Put(x[0], Split(whole[1..])) && Split(x) == Put(x[0], Split(x[1..]));
    }
  }

  /** One character more in front. */
  function Put(c: char, lines: seq<Line>): seq<Line>
    requires |lines| >= 1
  {
    if c == '\n' then [""] + lines else [[c] + lines[0]] + lines[1..]
  }

  lemma PutMore(c: char, lines: seq<Line>, rest: seq<Line>)
    requires |lines| >= 1
    ensures Put(c, lines + rest) == Put(c, lines) + rest
  {
    assert (lines + rest)[1..] == lines[1..] + rest;
  }

  /** Lines written one below the other are read back. */
  lemma {:induction false} SplitJoined(lines: seq<Line>)
    requires |lines| >= 1 && AllLines(lines)
    ensures Split(Join(lines)) == lines && Split(Join(lines) + "\n") == lines + [""]
  {
    if |lines| == 1 {
      SplitOne(lines[0]);
      SplitConcat(lines[0], "");
      assert lines[0] + "\n" + "" == lines[0] + "\n";
    } else {
      SplitJoined(lines[1..]);
      SplitOne(lines[0]);
      SplitConcat(lines[0], Join(lines[1..]));
      SplitConcat(lines[0], Join(lines[1..]) + "\n");
      assert lines[0] + "\n" + (Join(lines[1..]) + "\n") == Join(lines) + "\n";
    }
  }

  // ---- common subsequences ----

  predicate Subsequence(s: seq<Line>, a: seq<Line>) {
    s == [] || (a != [] && ((s[0] == a[0] && Subsequence(s[1..], a[1..])) || Subsequence(s, a[1..])))
  }

  predicate Common(s: seq<Line>, a: seq<Line>, b: seq<Line>) { Subsequence(s, a) && Subsequence(s, b) }

  function Max(x: nat, y: nat): nat { if x >= y then x else y }

  /** The table's entries. */
  function Lcs(a: seq<Line>, b: seq<Line>): nat
    decreases |a| + |b|
  {
    if a == [] || b == [] then 0
    else if a[0] == b[0] then Lcs(a[1..], b[1..]) + 1
    else Max(Lcs(a[1..], b), Lcs(a, b[1..]))
  }

  lemma {:induction false} DropFirst(s: seq<Line>, a: seq<Line>)
    requires s != [] && Subsequence(s, a)
    ensures a != [] && Subsequence(s[1..], a[1..]) && Subsequence(s[1..], a)
  {
    if s[0] != a[0] || !Subsequence(s[1..], a[1..]) {
      DropFirst(s, a[1..]);
      assert Subsequence(s[1..], a[1..]);
    }
    if s[1..] != [] { SubsequenceOfMore(s[1..], a); }
  }

  lemma SubsequenceOfMore(s: seq<Line>, a: seq<Line>)
    requires a != [] && Subsequence(s, a[1..])
    ensures Subsequence(s, a)
  {
  }

  lemma Longer(line: Line, s: seq<Line>, a: seq<Line>)
    requires Subsequence(s, a)
    ensures Subsequence([line] + s, [line] + a) && Subsequence(s, [line] + a)
  {
    assert ([line] + s)[1..] == s && ([line] + a)[1..] == a;
  }

  /** No common subsequence is longer than the table says. */
  lemma {:induction false} LcsIsBound(s: seq<Line>, a: seq<Line>, b: seq<Line>)
    requires Common(s, a, b)
    ensures |s| <= Lcs(a, b)
    decreases |a| + |b|
  {
    if s != [] {
      if a[0] == b[0] {
        DropFirst(s, a);
        DropFirst(s, b);
        LcsIsBound(s[1..], a[1..], b[1..]);
      } else if s[0] != a[0] {
        LcsIsBound(s, a[1..], b);
      } else {
        LcsIsBound(s, a, b[1..]);
      }
    }
  }

  lemma {:induction false} LcsFits(a: seq<Line>, b: seq<Line>)
    ensures Lcs(a, b) <= |a| && Lcs(a, b) <= |b|
    decreases |a| + |b|
  {
    if a != [] && b != [] {
      if a[0] == b[0] { LcsFits(a[1..], b[1..]); } else { LcsFits(a[1..], b); LcsFits(a, b[1..]); }
    }
  }

  /** The table's cells hold 32 bits, which is enough for every input that gets a table. */
  lemma CellsSuffice(a: seq<Line>, b: seq<Line>)
    requires a != [] && b != [] && |a| * |b| <= LIMIT
    ensures Lcs(a, b) < 0x1_0000_0000
  {
    LcsFits(a, b);
    assert |a| <= |a| * |b|;
  }

  // ---- scripts ----

  const LIMIT := 400000

  function Marked(mark: char, lines: seq<Line>): (out: seq<Line>)
    ensures |out| == |lines| && forall i :: 0 <= i < |lines| ==> out[i] == [mark] + lines[i]
  {
    seq(|lines|, i requires 0 <= i < |lines| => [mark] + lines[i])
  }

  function Script(a: seq<Line>, b: seq<Line>): seq<Line>
    decreases |a| + |b|
  {
    if a == [] then Marked('+', b)
    else if b == [] then Marked('-', a)
    else if a[0] == b[0] then [" " + a[0]] + Script(a[1..], b[1..])
    else if Lcs(a[1..], b) >= Lcs(a, b[1..]) then ["-" + a[0]] + Script(a[1..], b)
    else ["+" + b[0]] + Script(a, b[1..])
  }

  function Body(a: seq<Line>, b: seq<Line>): seq<Line> {
    if |a| * |b| > LIMIT then Marked('-', a) + Marked('+', b) else Script(a, b)
  }

  /** The lines of a diff with one of the marks, without it. */
  function Side(marks: set<char>, body: seq<Line>): seq<Line> {
    if body == [] then []
    else (if body[0] != "" && body[0][0] in marks then [body[0][1..]] else []) + Side(marks, body[1..])
  }

  const OLD := {' ', '-'}
  const NEW := {' ', '+'}
  const CONTEXT := {' '}

  lemma {:induction false} SideOfMarked(marks: set<char>, mark: char, lines: seq<Line>)
    ensures Side(marks, Marked(mark, lines)) == if mark in marks then lines else []
  {
    if lines != [] {
      SideOfMarked(marks, mark, lines[1..]);
      assert Marked(mark, lines)[1..] == Marked(mark, lines[1..]);
      assert ([mark] + lines[0])[1..] == lines[0];
      assert lines == [lines[0]] + lines[1..];
    }
  }

  lemma {:induction false} SideConcat(marks: set<char>, x: seq<Line>, y: seq<Line>)
    ensures Side(marks, x + y) == Side(marks, x) + Side(marks, y)
  {
    if x == [] {
      assert x + y == y;
    } else {
      SideConcat(marks, x[1..], y);
      assert (x + y)[0] == x[0] && (x + y)[1..] == x[1..] + y;
      var first := if x[0] != "" && x[0][0] in marks then [x[0][1..]] else [];
      Regroup(first, Side(marks, x[1..]), Side(marks, y));
    }
  }

  lemma Regroup(x: seq<Line>, y: seq<Line>, z: seq<Line>)
    ensures x + (y + z) == (x + y) + z
  {
  }

  lemma SideOfOne(marks: set<char>, mark: char, line: Line, rest: seq<Line>)
    ensures Side(marks, [[mark] + line] + rest) == (if mark in marks then [line] else []) + Side(marks, rest)
  {
    assert ([mark] + line)[1..] == line && ([[mark] + line] + rest)[1..] == rest;
  }

  lemma {:induction false} ScriptSpells(a: seq<Line>, b: seq<Line>)
    ensures Side(OLD, Script(a, b)) == a && Side(NEW, Script(a, b)) == b && |Side(CONTEXT, Script(a, b))| == Lcs(a, b)
    decreases |a| + |b|
  {
    forall marks ensures a == [] ==> Side(marks, Script(a, b)) == if '+' in marks then b else [] {
      SideOfMarked(marks, '+', b);
    }
    forall marks ensures a != [] && b == [] ==> Side(marks, Script(a, b)) == if '-' in marks then a else [] {
      SideOfMarked(marks, '-', a);
    }
    if a != [] && b != [] {
      assert a == [a[0]] + a[1..] && b == [b[0]] + b[1..];
      if a[0] == b[0] {
        ScriptSpells(a[1..], b[1..]);
        OneOfEach(' ', a[0], Script(a[1..], b[1..]));
      } else if Lcs(a[1..], b) >= Lcs(a, b[1..]) {
        ScriptSpells(a[1..], b);
        OneOfEach('-', a[0], Script(a[1..], b));
      } else {
        ScriptSpells(a, b[1..]);
        OneOfEach('+', b[0], Script(a, b[1..]));
      }
    }
  }

  lemma OneOfEach(mark: char, line: Line, rest: seq<Line>)
    ensures Side(OLD, [[mark] + line] + rest) == (if mark in OLD then [line] else []) + Side(OLD, rest)
    ensures Side(NEW, [[mark] + line] + rest) == (if mark in NEW then [line] else []) + Side(NEW, rest)
    ensures Side(CONTEXT, [[mark] + line] + rest) == (if mark in CONTEXT then [line] else []) + Side(CONTEXT, rest)
  {
    SideOfOne(OLD, mark, line, rest);
    SideOfOne(NEW, mark, line, rest);
    SideOfOne(CONTEXT, mark, line, rest);
  }

  /** Lossless: context and removed lines spell the old text, context and added lines the new one. */
  lemma BodySpells(a: seq<Line>, b: seq<Line>)
    ensures Side(OLD, Body(a, b)) == a && Side(NEW, Body(a, b)) == b
  {
    ScriptSpells(a, b);
    SideConcat(OLD, Marked('-', a), Marked('+', b));
    SideConcat(NEW, Marked('-', a), Marked('+', b));
    SideOfMarked(OLD, '-', a);
    SideOfMarked(OLD, '+', b);
    SideOfMarked(NEW, '-', a);
    SideOfMarked(NEW, '+', b);
  }

  // ---- minimality ----

  /** A diff's context is common to both sides, whatever the diff. */
  lemma {:induction false} ContextIsCommon(body: seq<Line>)
    ensures Common(Side(CONTEXT, body), Side(OLD, body), Side(NEW, body))
    ensures |Side(OLD, body)| + |Side(NEW, body)| <= |body| + |Side(CONTEXT, body)|
  {
    if body != [] {
      ContextIsCommon(body[1..]);
      var context := Side(CONTEXT, body[1..]);
      forall marks | CONTEXT <= marks && Subsequence(context, Side(marks, body[1..]))
        ensures Subsequence(Side(CONTEXT, body), Side(marks, body))
      {
        if body[0] != "" { Longer(body[0][1..], context, Side(marks, body[1..])); }
        assert [] + context == context && [] + Side(marks, body[1..]) == Side(marks, body[1..]);
      }
    }
  }

  /** With a table, the context is a longest common subsequence of the two texts' lines ... */
  lemma ContextIsLongest(a: seq<Line>, b: seq<Line>)
    requires |a| * |b| <= 400_000
    ensures var context := Side(CONTEXT, Body(a, b));
      && Common(context, a, b) && |context| == Lcs(a, b)
      && forall s :: Common(s, a, b) ==> |s| <= |context|
  {
    ScriptSpells(a, b);
    ContextIsCommon(Script(a, b));
    forall s | Common(s, a, b) ensures |s| <= Lcs(a, b) { LcsIsBound(s, a, b); }
  }

  /** ... so no diff of the two texts is shorter. */
  lemma ScriptIsShortest(a: seq<Line>, b: seq<Line>, other: seq<Line>)
    requires |a| * |b| <= 400_000 && Side(OLD, other) == a && Side(NEW, other) == b
    ensures |Body(a, b)| <= |other|
  {
    ContextIsCommon(other);
    LcsIsBound(Side(CONTEXT, other), a, b);
    ScriptLength(a, b);
  }

  lemma {:induction false} ScriptLength(a: seq<Line>, b: seq<Line>)
    ensures |Script(a, b)| + Lcs(a, b) == |a| + |b|
    decreases |a| + |b|
  {
    if a != [] && b != [] {
      if a[0] == b[0] { ScriptLength(a[1..], b[1..]); }
      else if Lcs(a[1..], b) >= Lcs(a, b[1..]) { ScriptLength(a[1..], b); }
      else { ScriptLength(a, b[1..]); }
    }
  }

  // ---- the text ----

  function Decimal(n: nat): string {
    if n < 10 then ["0123456789"[n]] else Decimal(n / 10) + ["0123456789"[n % 10]]
  }

  function Top(path: string): string { "diff --git a/" + path + " b/" + path + "\n" }

  /** The lines above the hunk, whose counts are the two texts' lines. */
  function Header(path: string, n: nat, m: nat): string {
    Top(path) + "--- a/" + path + "\n+++ b/" + path + "\n@@ -1," + Decimal(n) + " +1," + Decimal(m) + " @@\n"
  }

  function Named(path: string): string { if path == "" then "file" else path }

  lemma {:induction false} ScriptNotEmpty(a: seq<Line>, b: seq<Line>)
    requires a != [] || b != []
    ensures Body(a, b) != []
  {
    BodySpells(a, b);
  }

  function Unified(path: string, before: string, after: string): string {
    if before == after then Top(Named(path))
    else
      var a, b := Split(before), Split(after);
      var body := Body(a, b);
      ScriptNotEmpty(a, b);
      Header(Named(path), |a|, |b|) + Join(body) + "\n"
  }

  lemma {:induction false} MarkedLines(mark: char, lines: seq<Line>)
    requires mark != '\n' && AllLines(lines)
    ensures AllLines(Marked(mark, lines))
  {
  }

  lemma {:induction false} ScriptLines(a: seq<Line>, b: seq<Line>)
    requires AllLines(a) && AllLines(b)
    ensures AllLines(Script(a, b))
    decreases |a| + |b|
  {
    if a != [] && b != [] {
      if a[0] == b[0] { ScriptLines(a[1..], b[1..]); }
      else if Lcs(a[1..], b) >= Lcs(a, b[1..]) { ScriptLines(a[1..], b); }
      else { ScriptLines(a, b[1..]); }
    }
  }

  // ---- the text, read back ----

  /** The number a row of digits spells. */
  function Value(digits: string): nat {
    if digits == "" then 0
    else
      var c := digits[|digits| - 1];
      10 * Value(digits[..|digits| - 1]) + if '0' <= c <= '9' then (c as int - '0' as int) as nat else 0
  }

  /** A number as it is written: digits, the first one not 0 unless it is the only one. */
  predicate Numeral(s: string) {
    s != "" && (forall i :: 0 <= i < |s| ==> '0' <= s[i] <= '9') && (|s| > 1 ==> s[0] != '0')
  }

  /** The line says that n lines of the old text became m of the new. */
  ghost predicate Counts(line: Line, n: nat, m: nat) {
    exists x, y ::
      line == "@@ -1," + x + " +1," + y + " @@" && Numeral(x) && Numeral(y) && Value(x) == n && Value(y) == m
  }

  lemma {:induction false} DecimalSpells(n: nat)
    ensures Numeral(Decimal(n)) && Value(Decimal(n)) == n && (n > 0 ==> Decimal(n)[0] != '0')
  {
    if n >= 10 {
      DecimalSpells(n / 10);
      assert Decimal(n)[..|Decimal(n)| - 1] == Decimal(n / 10);
    }
  }

  function HunkLine(n: nat, m: nat): Line { "@@ -1," + Decimal(n) + " +1," + Decimal(m) + " @@" }

  lemma CountsLine(n: nat, m: nat)
    ensures Counts(HunkLine(n, m), n, m) && OneLine(HunkLine(n, m))
  {
    hide Decimal, Value;
    DecimalSpells(n);
    DecimalSpells(m);
  }

  /** What a reader of the diff's text gets, line by line: the path, "file" when it is empty, in three lines (if it is
      one); a line with two counts; and a body whose two sides are the two texts and have as many lines as they say. */
  lemma DiffReadsBack(path: string, before: string, after: string)
    requires before != after
    ensures var p := if path == "" then "file" else path;
      exists top, hunk, body ::
        && Split(Unified(path, before, after)) == top + [hunk] + body + [""]
        && |top| >= 1 && Join(top) == "diff --git a/" + p + " b/" + p + "\n--- a/" + p + "\n+++ b/" + p
        && (OneLine(p) ==> top == ["diff --git a/" + p + " b/" + p, "--- a/" + p, "+++ b/" + p])
        && Counts(hunk, |Side(OLD, body)|, |Side(NEW, body)|)
        && Side(OLD, body) != [] && Join(Side(OLD, body)) == before
        && Side(NEW, body) != [] && Join(Side(NEW, body)) == after
  {
    hide Split, Join, Decimal, Body, Side, Counts, Header;
    var p, a, b := if path == "" then "file" else path, Split(before), Split(after);
    var body := Body(a, b);
    SplitLines(before);
    SplitLines(after);
    BodySpells(a, b);
    BodyReadsBack(a, b);
    TopLines(p);
    var hunk := HunkLine(|a|, |b|);
    CountsLine(|a|, |b|);
    SplitOne(hunk);
    UnifiedIs(path, before, after);
    HeaderLines(p, |a|, |b|, Join(body) + "\n");
    Regroup(Split(TopText(p)), [hunk], body + [""]);
    Regroup(Split(TopText(p)) + [hunk], body, [""]);
    assert Split(Unified(path, before, after)) == Split(TopText(p)) + [hunk] + body + [""];
  }

  lemma UnifiedIs(path: string, before: string, after: string)
    requires before != after
    ensures var a, b := Split(before), Split(after);
      Unified(path, before, after) ==
        Header(if path == "" then "file" else path, |a|, |b|) + (Join(Body(a, b)) + "\n")
  {
    hide Split, Join, Decimal, Body, Side, Header;
    ScriptNotEmpty(Split(before), Split(after));
  }

  lemma BodyReadsBack(a: seq<Line>, b: seq<Line>)
    requires a != [] && b != [] && AllLines(a) && AllLines(b)
    ensures Body(a, b) != [] && Split(Join(Body(a, b)) + "\n") == Body(a, b) + [""]
  {
    ScriptNotEmpty(a, b);
    ScriptLines(a, b);
    MarkedLines('-', a);
    MarkedLines('+', b);
    SplitJoined(Body(a, b));
  }

  function TopText(p: string): string { "diff --git a/" + p + " b/" + p + "\n--- a/" + p + "\n+++ b/" + p }

  lemma TopLines(p: string)
    ensures Join(Split(TopText(p))) == TopText(p)
    ensures OneLine(p) ==> Split(TopText(p)) == ["diff --git a/" + p + " b/" + p, "--- a/" + p, "+++ b/" + p]
  {
    hide Join, Split;
    SplitLines(TopText(p));
    var x, y, z := "diff --git a/" + p + " b/" + p, "--- a/" + p, "+++ b/" + p;
    assert TopText(p) == x + "\n" + (y + "\n" + z);
    SplitConcat(x, y + "\n" + z);
    SplitConcat(y, z);
    if OneLine(p) {
      SplitOne(x);
      SplitOne(y);
      SplitOne(z);
      assert [x] + ([y] + [z]) == [x, y, z];
    }
  }

  lemma HeaderLines(p: string, n: nat, m: nat, rest: string)
    ensures Split(Header(p, n, m) + rest) == Split(TopText(p)) + (Split(HunkLine(n, m)) + Split(rest))
  {
    hide Split, Decimal;
    var hunk := HunkLine(n, m);
    assert Header(p, n, m) + rest == TopText(p) + "\n" + (hunk + "\n" + rest);
    SplitConcat(TopText(p), hunk + "\n" + rest);
    SplitConcat(hunk, rest);
  }

  /** A diff with no hunk means equal texts, and only that. */
  lemma NoHunkMeansEqual(path: string, before: string, after: string)
    ensures var p := if path == "" then "file" else path;
      before == after <==> Unified(path, before, after) == "diff --git a/" + p + " b/" + p + "\n"
  {
    if before != after {
      var a, b := Split(before), Split(after);
      ScriptNotEmpty(a, b);
      assert |Header(Named(path), |a|, |b|)| > |Top(Named(path))|;
      assert Unified(path, before, after) == Header(Named(path), |a|, |b|) + Join(Body(a, b)) + "\n";
    }
  }

  // ---- the algorithm ----

  /** The table, from the last lines back. */
  method Table(a: seq<Line>, b: seq<Line>) returns (dp: array2<nat>)
    ensures fresh(dp) && dp.Length0 == |a| + 1 && dp.Length1 == |b| + 1
    ensures forall i, j :: 0 <= i <= |a| && 0 <= j <= |b| ==> dp[i, j] == Lcs(a[i..], b[j..])
  {
    var n, m := |a|, |b|;
    dp := new nat[n + 1, m + 1]((i, j) => 0);
    var i := n;
    while i > 0
      invariant 0 <= i <= n
      invariant forall k, j :: i <= k <= n && 0 <= j <= m ==> dp[k, j] == Lcs(a[k..], b[j..])
      invariant forall k, j :: 0 <= k < i && 0 <= j <= m ==> dp[k, j] == 0
    {
      i := i - 1;
      FillRow(a, b, dp, i);
    }
  }

  lemma RowEnds(a: seq<Line>, b: seq<Line>, i: nat)
    requires i <= |a|
    ensures Lcs(a[i..], b[|b|..]) == 0
  {
  }

  lemma LcsStep(a: seq<Line>, b: seq<Line>, i: nat, j: nat)
    requires i < |a| && j < |b|
    ensures Lcs(a[i..], b[j..]) ==
      if a[i] == b[j] then Lcs(a[i + 1..], b[j + 1..]) + 1 else Max(Lcs(a[i + 1..], b[j..]), Lcs(a[i..], b[j + 1..]))
  {
    assert a[i..][1..] == a[i + 1..] && b[j..][1..] == b[j + 1..];
  }

  method FillRow(a: seq<Line>, b: seq<Line>, dp: array2<nat>, i: nat)
    requires i < |a| && dp.Length0 == |a| + 1 && dp.Length1 == |b| + 1
    requires forall j :: 0 <= j <= |b| ==> dp[i + 1, j] == Lcs(a[i + 1..], b[j..])
    requires dp[i, |b|] == 0
    modifies dp
    ensures forall j :: 0 <= j <= |b| ==> dp[i, j] == Lcs(a[i..], b[j..])
    ensures forall k, j :: 0 <= k <= |a| && k != i && 0 <= j <= |b| ==> dp[k, j] == old(dp[k, j])
  {
    hide Lcs;
    RowEnds(a, b, i);
    var j := |b|;
    while j > 0
      invariant 0 <= j <= |b|
      invariant forall q :: j <= q <= |b| ==> dp[i, q] == Lcs(a[i..], b[q..])
      invariant forall k, q :: 0 <= k <= |a| && k != i && 0 <= q <= |b| ==> dp[k, q] == old(dp[k, q])
    {
      j := j - 1;
      LcsStep(a, b, i, j);
      dp[i, j] := if a[i] == b[j] then dp[i + 1, j + 1] + 1 else Max(dp[i + 1, j], dp[i, j + 1]);
    }
  }

  method MarkAll(mark: char, lines: seq<Line>) returns (out: seq<Line>)
    ensures out == Marked(mark, lines)
  {
    out := [];
    for i := 0 to |lines|
      invariant out == Marked(mark, lines[..i])
    {
      out := out + [[mark] + lines[i]];
      assert out == Marked(mark, lines[..i + 1]);
    }
    assert lines[..|lines|] == lines;
  }

  /** The walk through the table. */
  method Walk(a: seq<Line>, b: seq<Line>, dp: array2<nat>) returns (body: seq<Line>)
    requires dp.Length0 == |a| + 1 && dp.Length1 == |b| + 1
    requires forall i, j :: 0 <= i <= |a| && 0 <= j <= |b| ==> dp[i, j] == Lcs(a[i..], b[j..])
    ensures body == Script(a, b)
  {
    body := [];
    var i, j := 0, 0;
    assert a[0..] == a && b[0..] == b;
    while i < |a| && j < |b|
      invariant 0 <= i <= |a| && 0 <= j <= |b| && body + Script(a[i..], b[j..]) == Script(a, b)
      decreases |a| - i + |b| - j
    {
      ScriptStep(a, b, i, j);
      var line, di, dj := Step(a[i], b[j], dp[i + 1, j], dp[i, j + 1]);
      Regroup(body, [line], Script(a[i + di..], b[j + dj..]));
      body, i, j := body + [line], i + di, j + dj;
    }
    var removed := MarkAll('-', a[i..]);
    var added := MarkAll('+', b[j..]);
    ScriptEnd(a, b, i, j);
    body := body + (removed + added);
  }

  /** One line of the walk, and how far it goes in each text. */
  method Step(x: Line, y: Line, down: nat, right: nat) returns (line: Line, di: nat, dj: nat)
    ensures (line, di, dj) == StepOf(x, y, down, right)
  {
    if x == y { return " " + x, 1, 1; }
    if down >= right { return "-" + x, 1, 0; }
    return "+" + y, 0, 1;
  }

  function StepOf(x: Line, y: Line, down: nat, right: nat): (Line, nat, nat) {
    if x == y then (" " + x, 1, 1) else if down >= right then ("-" + x, 1, 0) else ("+" + y, 0, 1)
  }

  lemma ScriptStep(a: seq<Line>, b: seq<Line>, i: nat, j: nat)
    requires i < |a| && j < |b|
    ensures var (line, di, dj) := StepOf(a[i], b[j], Lcs(a[i + 1..], b[j..]), Lcs(a[i..], b[j + 1..]));
      i + di <= |a| && j + dj <= |b| && di + dj > 0
        && Script(a[i..], b[j..]) == [line] + Script(a[i + di..], b[j + dj..])
  {
    assert a[i..][1..] == a[i + 1..] && b[j..][1..] == b[j + 1..];
  }

  lemma ScriptEnd(a: seq<Line>, b: seq<Line>, i: nat, j: nat)
    requires i <= |a| && j <= |b| && (i == |a| || j == |b|)
    ensures Script(a[i..], b[j..]) == Marked('-', a[i..]) + Marked('+', b[j..])
  {
  }

  method UnifiedDiff(path: string, before: string, after: string) returns (out: string)
    ensures out == Unified(path, before, after)
  {
    var p := if path == "" then "file" else path;
    if before == after { return "diff --git a/" + p + " b/" + p + "\n"; }
    var a, b := Split(before), Split(after);
    var body;
    if |a| * |b| > 400000 {
      var removed := MarkAll('-', a);
      var added := MarkAll('+', b);
      body := removed + added;
    } else {
      var dp := Table(a, b);
      body := Walk(a, b, dp);
    }
    assert body == Body(a, b);
    ScriptNotEmpty(a, b);
    out := Header(p, |a|, |b|) + Join(body) + "\n";
  }
}
