/**
The line diff of two policy versions: a table of common-subsequence lengths,
filled from the end, and a greedy walk through it.
*/
module LineDiff {
  type Line = string

  datatype Kind = Same | Removed | Added

  datatype Entry = Entry(kind: Kind, text: Line)

  const WRAP := 0x1_0000_0000

  // ---- Lines -------------------------------------------------------------

  function Split(text: string): (lines: seq<Line>)
    ensures |lines| >= 1
  {
    if text == [] then [""]
    else
      var rest := Split(text[1..]);
      if text[0] == '\n' then [""] + rest else [[text[0]] + rest[0]] + rest[1..]
  }

  function Join(lines: seq<Line>): string {
    if lines == [] then ""
    else if |lines| == 1 then lines[0]
    else lines[0] + "\n" + Join(lines[1..])
  }

  /** Splitting loses nothing. */
  lemma {:induction false} JoinSplit(text: string)
    ensures Join(Split(text)) == text
  {
    if text != [] {
      var rest := Split(text[1..]);
      JoinSplit(text[1..]);
      if text[0] == '\n' {
        assert ([""] + rest)[1..] == rest;
      } else {
        var lines := [[text[0]] + rest[0]] + rest[1..];
        assert lines[1..] == rest[1..];
      }
      assert text == [text[0]] + text[1..];
    }
  }

  /** The lines of a text, said without splitting it: free of line ends, and together the text. */
  predicate LinesOf(lines: seq<Line>, text: string) {
    |lines| >= 1 && Join(lines) == text && forall k :: 0 <= k < |lines| ==> '\n' !in lines[k]
  }

  lemma {:induction false} SplitsClean(text: string)
    ensures forall k :: 0 <= k < |Split(text)| ==> '\n' !in Split(text)[k]
  {
    if text != [] {
      SplitsClean(text[1..]);
    }
  }

  lemma SplitIsLines(text: string)
    ensures LinesOf(Split(text), text)
  {
    JoinSplit(text);
    SplitsClean(text);
  }

  lemma {:induction false} SplitStart(line: Line, rest: string)
    requires '\n' !in line
    ensures Split(line + "\n" + rest) == [line] + Split(rest) && Split(line) == [line]
  {
    var text := line + "\n" + rest;
    if line == [] {
      assert text[1..] == rest;
    } else {
      SplitStart(line[1..], rest);
      assert text[1..] == line[1..] + "\n" + rest;
      assert [line[0]] + line[1..] == line;
    }
  }

  /** A text has no other lines. */
  lemma {:induction false} LinesAreSplit(lines: seq<Line>, text: string)
    requires LinesOf(lines, text)
    ensures lines == Split(text)
  {
    if |lines| == 1 {
      SplitStart(lines[0], "");
    } else {
      LinesAreSplit(lines[1..], Join(lines[1..]));
      SplitStart(lines[0], Join(lines[1..]));
    }
  }

  // ---- Common subsequences ----------------------------------------------------

  ghost predicate Subsequence<T>(s: seq<T>, t: seq<T>) {
    s == [] || (t != [] && ((s[0] == t[0] && Subsequence(s[1..], t[1..])) || Subsequence(s, t[1..])))
  }

  ghost predicate Common<T>(s: seq<T>, a: seq<T>, b: seq<T>) {
    Subsequence(s, a) && Subsequence(s, b)
  }

  /** The length the table holds for the lines of `a` from `i` on and of `b` from `j` on. */
  ghost function Longest(a: seq<Line>, b: seq<Line>, i: nat, j: nat): (n: nat)
    requires i <= |a| && j <= |b|
    ensures n <= |a| - i && n <= |b| - j
    decreases |a| - i + |b| - j
  {
    if i == |a| || j == |b| then 0
    else if a[i] == b[j] then Longest(a, b, i + 1, j + 1) + 1
    else
      var skipA, skipB := Longest(a, b, i + 1, j), Longest(a, b, i, j + 1);
      if skipA > skipB then skipA else skipB
  }

  lemma {:induction false} SubsequenceWiden<T>(s: seq<T>, t: seq<T>)
    requires t != [] && Subsequence(s, t[1..])
    ensures Subsequence(s, t)
  {
  }

  lemma {:induction false} SubsequenceTail<T>(s: seq<T>, t: seq<T>)
    requires s != [] && Subsequence(s, t)
    ensures t != [] && Subsequence(s[1..], t[1..])
  {
    if !(s[0] == t[0] && Subsequence(s[1..], t[1..])) {
      SubsequenceTail(s, t[1..]);
      SubsequenceWiden(s[1..], t[1..]);
    }
  }

  /** No common subsequence is longer. */
  lemma {:induction false} LongestIsMaximal(s: seq<Line>, a: seq<Line>, b: seq<Line>, i: nat, j: nat)
    requires i <= |a| && j <= |b| && Common(s, a[i..], b[j..])
    ensures |s| <= Longest(a, b, i, j)
    decreases |a| - i + |b| - j
  {
    if s != [] {
      assert a[i..][1..] == a[i + 1..] && b[j..][1..] == b[j + 1..];
      if a[i] == b[j] {
        SubsequenceTail(s, a[i..]);
        SubsequenceTail(s, b[j..]);
        LongestIsMaximal(s[1..], a, b, i + 1, j + 1);
      } else if s[0] != a[i] {
        LongestIsMaximal(s, a, b, i + 1, j);
      } else {
        LongestIsMaximal(s, a, b, i, j + 1);
      }
    }
  }

  // ---- Reading a diff -----------------------------------------------------------

  function Texts(diff: seq<Entry>, without: Kind): seq<Line> {
    if diff == [] then []
    else (if diff[0].kind == without then [] else [diff[0].text]) + Texts(diff[1..], without)
  }

  function Kept(diff: seq<Entry>): seq<Line> {
    if diff == [] then []
    else (if diff[0].kind == Same then [diff[0].text] else []) + Kept(diff[1..])
  }

  lemma {:induction false} KeptIsSubsequence(diff: seq<Entry>, without: Kind)
    requires without != Same
    ensures Subsequence(Kept(diff), Texts(diff, without))
  {
    if diff != [] {
      KeptIsSubsequence(diff[1..], without);
      var kept, texts := Kept(diff[1..]), Texts(diff[1..], without);
      assert ([diff[0].text] + kept)[1..] == kept && ([diff[0].text] + texts)[1..] == texts;
      assert [] + kept == kept && [] + texts == texts;
      if diff[0].kind != Same && diff[0].kind != without {
        SubsequenceWiden(kept, [diff[0].text] + texts);
      }
    }
  }

  /** Whether every length the table can hold fits the 32-bit cells. */
  predicate Fits(a: seq<Line>, b: seq<Line>) {
    |a| < WRAP || |b| < WRAP
  }

  /** A correct diff of two texts: without the added entries it is the lines of the one, without the removed the lines of the other. */
  ghost predicate Spells(diff: seq<Entry>, before: string, after: string) {
    LinesOf(Texts(diff, Added), before) && LinesOf(Texts(diff, Removed), after)
  }

  /** No common subsequence of the two sides is longer than the kept lines. */
  ghost predicate KeepsMost(diff: seq<Entry>) {
    Common(Kept(diff), Texts(diff, Added), Texts(diff, Removed)) &&
    forall s :: Common(s, Texts(diff, Added), Texts(diff, Removed)) ==> |s| <= |Kept(diff)|
  }

  /** How many lines of the first side the first `k` entries used, and of the second. */
  ghost function UsedA(diff: seq<Entry>, k: nat): nat
    requires k <= |diff|
  {
    |Texts(diff[..k], Added)|
  }

  ghost function UsedB(diff: seq<Entry>, k: nat): nat
    requires k <= |diff|
  {
    |Texts(diff[..k], Removed)|
  }

  /** Entry `k` keeps a line exactly when both sides go on with the same one. */
  ghost predicate KeepsEqual(diff: seq<Entry>, a: seq<Line>, b: seq<Line>, k: nat)
    requires k < |diff|
  {
    var i, j := UsedA(diff, k), UsedB(diff, k);
    diff[k].kind == Same <==> i < |a| && j < |b| && a[i] == b[j]
  }

  /** Entry `k` removes a line only when adding the next one instead would cost a kept line. */
  ghost predicate AddsFirst(diff: seq<Entry>, a: seq<Line>, b: seq<Line>, k: nat)
    requires k < |diff|
  {
    var i, j := UsedA(diff, k), UsedB(diff, k);
    diff[k].kind == Removed && i < |a| && j < |b| ==>
      forall s :: Common(s, a[i..], b[j + 1..]) ==> |s| < |Kept(diff[k..])|
  }

  /** The order of the entries. */
  ghost predicate InOrder(diff: seq<Entry>) {
    var a, b := Texts(diff, Added), Texts(diff, Removed);
    forall k :: 0 <= k < |diff| ==> KeepsEqual(diff, a, b, k) && (Fits(a, b) ==> AddsFirst(diff, a, b, k))
  }

  lemma {:induction false} Appended(diff: seq<Entry>, e: Entry)
    ensures Kept(diff + [e]) == Kept(diff) + if e.kind == Same then [e.text] else []
    ensures Texts(diff + [e], Added) == Texts(diff, Added) + if e.kind == Added then [] else [e.text]
    ensures Texts(diff + [e], Removed) == Texts(diff, Removed) + if e.kind == Removed then [] else [e.text]
  {
    if diff != [] {
      Appended(diff[1..], e);
      assert (diff + [e])[1..] == diff[1..] + [e];
    }
  }

  // ---- The program ------------------------------------------------------------------

  /** Row `i` holds the lengths from column `j` on, unless cells may have wrapped. */
  ghost predicate RowFilled(table: array2<nat>, a: seq<Line>, b: seq<Line>, i: nat, j: nat)
    requires table.Length0 == |a| + 1 && table.Length1 == |b| + 1 && i <= |a|
    reads table
  {
    Fits(a, b) ==> forall l :: j <= l <= |b| ==> table[i, l] == Longest(a, b, i, l)
  }

  method FillRow(table: array2<nat>, a: seq<Line>, b: seq<Line>, i: nat)
    requires table.Length0 == |a| + 1 && table.Length1 == |b| + 1 && i < |a|
    requires table[i, |b|] == 0 && RowFilled(table, a, b, i + 1, 0)
    modifies table
    ensures RowFilled(table, a, b, i, 0)
    ensures forall k, l :: 0 <= k <= |a| && 0 <= l <= |b| && k != i ==> table[k, l] == old(table[k, l])
  {
    var j := |b|;
    while j > 0
      invariant 0 <= j <= |b|
      invariant forall k, l :: 0 <= k <= |a| && 0 <= l <= |b| && k != i ==> table[k, l] == old(table[k, l])
      invariant RowFilled(table, a, b, i, j)
    {
      j := j - 1;
      table[i, j] :=
        if a[i] == b[j] then (table[i + 1, j + 1] + 1) % WRAP
        else if table[i + 1, j] > table[i, j + 1] then table[i + 1, j] else table[i, j + 1];
    }
  }

  method FillTable(a: seq<Line>, b: seq<Line>) returns (table: array2<nat>)
    ensures table.Length0 == |a| + 1 && table.Length1 == |b| + 1 && fresh(table)
    ensures forall k :: 0 <= k <= |a| ==> RowFilled(table, a, b, k, 0)
  {
    table := new nat[|a| + 1, |b| + 1]((_, _) => 0);
    var i := |a|;
    while i > 0
      invariant 0 <= i <= |a|
      invariant forall k :: 0 <= k < i ==> table[k, |b|] == 0
      invariant forall k :: i <= k <= |a| ==> RowFilled(table, a, b, k, 0)
    {
      i := i - 1;
      assert RowFilled(table, a, b, i + 1, 0);
      label before:
      FillRow(table, a, b, i);
      forall k | i < k <= |a| ensures RowFilled(table, a, b, k, 0) {
        assert old@before(RowFilled(table, a, b, k, 0));
      }
    }
  }

  /** The walk has reached lines `i` and `j` and kept as many lines as it could so far. */
  ghost predicate Walked(out: seq<Entry>, a: seq<Line>, b: seq<Line>, i: nat, j: nat) {
    i <= |a| && j <= |b| && Texts(out, Added) == a[..i] && Texts(out, Removed) == b[..j] &&
    (Fits(a, b) ==> |Kept(out)| + Longest(a, b, i, j) == Longest(a, b, 0, 0))
  }

  lemma KeepOne(out: seq<Entry>, a: seq<Line>, b: seq<Line>, i: nat, j: nat)
    requires Walked(out, a, b, i, j) && i < |a| && j < |b| && a[i] == b[j]
    ensures Walked(out + [Entry(Same, a[i])], a, b, i + 1, j + 1)
  {
    Appended(out, Entry(Same, a[i]));
  }

  lemma AddOne(out: seq<Entry>, a: seq<Line>, b: seq<Line>, i: nat, j: nat)
    requires Walked(out, a, b, i, j) && j < |b|
    requires Fits(a, b) ==> Longest(a, b, i, j) == Longest(a, b, i, j + 1)
    ensures Walked(out + [Entry(Added, b[j])], a, b, i, j + 1)
  {
    Appended(out, Entry(Added, b[j]));
  }

  lemma RemoveOne(out: seq<Entry>, a: seq<Line>, b: seq<Line>, i: nat, j: nat)
    requires Walked(out, a, b, i, j) && i < |a|
    requires Fits(a, b) ==> Longest(a, b, i, j) == Longest(a, b, i + 1, j)
    ensures Walked(out + [Entry(Removed, a[i])], a, b, i + 1, j)
  {
    Appended(out, Entry(Removed, a[i]));
  }

  /** What the walk knew when it wrote entry `k`. */
  ghost predicate Wrote(out: seq<Entry>, a: seq<Line>, b: seq<Line>, k: nat)
    requires k < |out|
  {
    var i, j := UsedA(out, k), UsedB(out, k);
    Walked(out[..k], a, b, i, j) && KeepsEqual(out, a, b, k) &&
    (Fits(a, b) && out[k].kind == Removed && i < |a| && j < |b| ==> Longest(a, b, i, j + 1) < Longest(a, b, i, j))
  }

  lemma WroteOneMore(out: seq<Entry>, e: Entry, a: seq<Line>, b: seq<Line>, i: nat, j: nat)
    requires Walked(out, a, b, i, j) && forall k :: 0 <= k < |out| ==> Wrote(out, a, b, k)
    requires e.kind == Same <==> i < |a| && j < |b| && a[i] == b[j]
    requires Fits(a, b) && e.kind == Removed && i < |a| && j < |b| ==> Longest(a, b, i, j + 1) < Longest(a, b, i, j)
    ensures forall k :: 0 <= k < |out + [e]| ==> Wrote(out + [e], a, b, k)
  {
    var more := out + [e];
    forall k | 0 <= k < |more| ensures Wrote(more, a, b, k) {
      assert more[..k] == if k < |out| then out[..k] else out;
      if k < |out| {
        assert Wrote(out, a, b, k);
      }
    }
  }

  method Walk(a: seq<Line>, b: seq<Line>) returns (out: seq<Entry>)
    ensures Texts(out, Added) == a && Texts(out, Removed) == b
    ensures Fits(a, b) ==> |Kept(out)| == Longest(a, b, 0, 0)
    ensures forall k :: 0 <= k < |out| ==> Wrote(out, a, b, k)
  {
    var table := FillTable(a, b);
    out := [];
    var i, j := 0, 0;
    while i < |a| || j < |b|
      invariant i <= |a| && j <= |b|
      invariant forall k :: 0 <= k <= |a| ==> RowFilled(table, a, b, k, 0)
      invariant Walked(out, a, b, i, j)
      invariant forall k :: 0 <= k < |out| ==> Wrote(out, a, b, k)
      decreases |a| - i + |b| - j
    {
      assert RowFilled(table, a, b, i, 0) && (i < |a| ==> RowFilled(table, a, b, i + 1, 0));
      if i < |a| && j < |b| && a[i] == b[j] {
        WroteOneMore(out, Entry(Same, a[i]), a, b, i, j);
        KeepOne(out, a, b, i, j);
        out := out + [Entry(Same, a[i])];
        i, j := i + 1, j + 1;
      } else if j < |b| && (i == |a| || table[i, j + 1] >= table[i + 1, j]) {
        WroteOneMore(out, Entry(Added, b[j]), a, b, i, j);
        AddOne(out, a, b, i, j);
        out := out + [Entry(Added, b[j])];
        j := j + 1;
      } else {
        WroteOneMore(out, Entry(Removed, a[i]), a, b, i, j);
        RemoveOne(out, a, b, i, j);
        out := out + [Entry(Removed, a[i])];
        i := i + 1;
      }
    }
  }

  lemma WholeDiff(diff: seq<Entry>, before: string, after: string)
    requires Texts(diff, Added) == Split(before) && Texts(diff, Removed) == Split(after)
    ensures Spells(diff, before, after)
    ensures |Kept(diff)| == Longest(Split(before), Split(after), 0, 0) ==> KeepsMost(diff)
  {
    var a, b := Split(before), Split(after);
    SplitIsLines(before);
    SplitIsLines(after);
    KeptIsSubsequence(diff, Added);
    KeptIsSubsequence(diff, Removed);
    forall s | Common(s, a, b) ensures |s| <= Longest(a, b, 0, 0) {
      assert a[0..] == a && b[0..] == b;
      LongestIsMaximal(s, a, b, 0, 0);
    }
  }

  lemma {:induction false} KeptApart(diff: seq<Entry>, k: nat)
    requires k <= |diff|
    ensures Kept(diff) == Kept(diff[..k]) + Kept(diff[k..])
  {
    if k > 0 {
      KeptApart(diff[1..], k - 1);
      assert diff[..k][1..] == diff[1..][..k - 1] && diff[1..][k - 1..] == diff[k..];
    }
  }

  lemma WroteInOrder(diff: seq<Entry>, a: seq<Line>, b: seq<Line>, k: nat)
    requires k < |diff| && Wrote(diff, a, b, k) && Fits(a, b) && |Kept(diff)| == Longest(a, b, 0, 0)
    ensures AddsFirst(diff, a, b, k)
  {
    var i, j := UsedA(diff, k), UsedB(diff, k);
    KeptApart(diff, k);
    if diff[k].kind == Removed && i < |a| && j < |b| {
      forall s | Common(s, a[i..], b[j + 1..]) ensures |s| < |Kept(diff[k..])| {
        LongestIsMaximal(s, a, b, i, j + 1);
      }
    }
  }

  /**
  Whatever the sizes, the diff spells both texts and keeps a line wherever both
  go on with the same one; while the table's cells do not wrap it keeps the most
  lines, and puts additions before removals as far as that allows.
  */
  method Diff(before: string, after: string) returns (out: seq<Entry>)
    ensures Spells(out, before, after) && InOrder(out)
    ensures Fits(Texts(out, Added), Texts(out, Removed)) ==> KeepsMost(out)
  {
    var a, b := Split(before), Split(after);
    out := Walk(a, b);
    WholeDiff(out, before, after);
    forall k | 0 <= k < |out| ensures KeepsEqual(out, a, b, k) && (Fits(a, b) ==> AddsFirst(out, a, b, k)) {
      assert Wrote(out, a, b, k);
      if Fits(a, b) {
        WroteInOrder(out, a, b, k);
      }
    }
  }
}
