/**
Policy files are HuJSON: JSON with comments and trailing commas. `Standardize`
rewrites one to JSON in a single pass; here it is proved against a lexer that
cuts the text into string literals, comments and single characters.
*/
module PolicyText {
  import opened Wrappers

  // ---- Characters -----------------------------------------------------------

  predicate Bracket(c: char) {
    c == '}' || c == ']'
  }

  /** What `/^\s*[}\]]/` finds. */
  predicate ClosesText(t: string) {
    t != [] && (Bracket(t[0]) || (Space(t[0]) && ClosesText(t[1..])))
  }

  // ---- The lexer ---------------------------------------------------------------

  datatype Piece = Str(text: string) | Line(text: string) | Block(text: string) | Char(c: char)

  /** Characters up to and with the closing quote; a backslash hides the character after it. */
  function StringLength(t: string): (n: nat)
    ensures n <= |t|
  {
    if t == [] then 0
    else if t[0] == '"' then 1
    else if t[0] == '\\' then if |t| == 1 then 1 else 2 + StringLength(t[2..])
    else 1 + StringLength(t[1..])
  }

  /** Characters up to and with the line's end. */
  function LineLength(t: string): (n: nat)
    ensures n <= |t|
  {
    if t == [] then 0 else if t[0] == '\n' then 1 else 1 + LineLength(t[1..])
  }

  predicate StarSlash(t: string) {
    |t| >= 2 && t[0] == '*' && t[1] == '/'
  }

  /** Characters up to and with the comment's end. */
  function BlockLength(t: string): (n: nat)
    ensures n <= |t|
  {
    if t == [] then 0 else if StarSlash(t) then 2 else 1 + BlockLength(t[1..])
  }

  predicate StartsLine(t: string) {
    |t| >= 2 && t[0] == '/' && t[1] == '/'
  }

  predicate StartsBlock(t: string) {
    |t| >= 2 && t[0] == '/' && t[1] == '*'
  }

  function PieceLength(t: string): (n: nat)
    requires t != []
    ensures 1 <= n <= |t|
  {
    if t[0] == '"' then 1 + StringLength(t[1..])
    else if StartsLine(t) then 2 + LineLength(t[2..])
    else if StartsBlock(t) then 2 + BlockLength(t[2..])
    else 1
  }

  function FirstPiece(t: string): Piece
    requires t != []
  {
    var text := t[..PieceLength(t)];
    if t[0] == '"' then Str(text)
    else if StartsLine(t) then Line(text)
    else if StartsBlock(t) then Block(text)
    else Char(t[0])
  }

  function Text(p: Piece): string {
    match p
    case Char(c) => [c]
    case _ => p.text
  }

  function Lex(t: string): seq<Piece> {
    if t == [] then [] else [FirstPiece(t)] + Lex(t[PieceLength(t)..])
  }

  function Render(ps: seq<Piece>): string {
    if ps == [] then "" else Text(ps[0]) + Render(ps[1..])
  }

  lemma TextOfFirst(t: string)
    requires t != []
    ensures Text(FirstPiece(t)) == t[..PieceLength(t)]
  {
  }

  lemma {:induction false} RenderLex(t: string)
    ensures Render(Lex(t)) == t
  {
    if t != [] {
      TextOfFirst(t);
      RenderLex(t[PieceLength(t)..]);
    }
  }

  lemma LexStep(t: string)
    requires t != []
    ensures Lex(t)[0] == FirstPiece(t) && Lex(t)[1..] == Lex(t[PieceLength(t)..])
  {
  }

  lemma RenderOne(p: Piece, ps: seq<Piece>)
    ensures Render([p] + ps) == Text(p) + Render(ps)
  {
    assert ([p] + ps)[1..] == ps;
  }

  // ---- What standardizing does to the pieces -----------------------------------------

  /** Only white space up to a closing bracket. */
  predicate Closes(ps: seq<Piece>) {
    ps != [] && ps[0].Char? && (Bracket(ps[0].c) || (Space(ps[0].c) && Closes(ps[1..])))
  }

  predicate Dropped(ps: seq<Piece>) {
    ps != [] && ps[0] == Char(',') && Closes(ps[1..])
  }

  /** Line comments become line ends; block comments and trailing commas go. */
  function Clean(ps: seq<Piece>): seq<Piece> {
    if ps == [] then []
    else if ps[0].Line? then [Char('\n')] + Clean(ps[1..])
    else if ps[0].Block? || Dropped(ps) then Clean(ps[1..])
    else [ps[0]] + Clean(ps[1..])
  }

  function Standard(t: string): string {
    Render(Clean(Lex(t)))
  }

  function Strings(ps: seq<Piece>): seq<string> {
    if ps == [] then [] else (if ps[0].Str? then [ps[0].text] else []) + Strings(ps[1..])
  }

  predicate Comment(p: Piece) {
    p.Line? || p.Block?
  }

  predicate HasComment(ps: seq<Piece>) {
    exists p :: p in ps && Comment(p)
  }

  /** The test on the raw text decides what lies ahead among the pieces. */
  lemma {:induction false} ClosesTextIsCloses(t: string)
    ensures ClosesText(t) <==> Closes(Lex(t))
  {
    if t != [] {
      LexStep(t);
      if Space(t[0]) {
        ClosesTextIsCloses(t[1..]);
        assert PieceLength(t) == 1 && FirstPiece(t) == Char(t[0]);
      }
    }
  }

  lemma HasCommentStep(t: string)
    requires t != []
    ensures HasComment(Lex(t)) <==> Comment(FirstPiece(t)) || HasComment(Lex(t[PieceLength(t)..]))
  {
    assert Lex(t) == [FirstPiece(t)] + Lex(t[PieceLength(t)..]);
  }

  /** The pass drops a comma of the text exactly when the comma's piece is to be dropped. */
  lemma CommaIsDropped(t: string)
    requires t != []
    ensures Dropped(Lex(t)) <==> t[0] == ',' && ClosesText(t[1..])
  {
    LexStep(t);
    if t[0] == ',' {
      ClosesTextIsCloses(t[1..]);
    }
  }

  // ---- The grammar of pieces, place by place ------------------------------------------

  /** How many backslashes stand right before place `k`. */
  function Escapes(s: string, k: nat): nat
    requires k <= |s|
  {
    if k == 0 || s[k - 1] != '\\' then 0 else 1 + Escapes(s, k - 1)
  }

  /** A quote that ends a literal: an even number of backslashes before it. */
  predicate EndQuote(s: string, k: nat)
    requires k < |s|
  {
    s[k] == '"' && Escapes(s, k) % 2 == 0
  }

  /** From a quote to its end quote; only the last piece of a text may lack it. */
  predicate Literal(s: string, last: bool) {
    |s| >= 1 && s[0] == '"' && (forall k :: 1 <= k < |s| - 1 ==> !EndQuote(s, k)) &&
    (last || (|s| >= 2 && EndQuote(s, |s| - 1)))
  }

  /** From two slashes to the end of the line; only the last piece of a text may lack that. */
  predicate LineComment(s: string, last: bool) {
    |s| >= 2 && s[0] == s[1] == '/' && (forall k :: 0 <= k < |s| - 1 ==> s[k] != '\n') && (last || s[|s| - 1] == '\n')
  }

  predicate StarSlashAt(s: string, k: nat)
    requires k + 1 < |s|
  {
    s[k] == '*' && s[k + 1] == '/'
  }

  /** To the first star and slash after its opening; only the last piece of a text may lack them. */
  predicate BlockComment(s: string, last: bool) {
    |s| >= 2 && s[0] == '/' && s[1] == '*' && (forall k :: 2 <= k < |s| - 2 ==> !StarSlashAt(s, k)) &&
    (last || (|s| >= 4 && StarSlashAt(s, |s| - 2)))
  }

  predicate Slashy(ps: seq<Piece>) {
    ps != [] && (ps[0] == Char('/') || ps[0] == Char('*') || Comment(ps[0]))
  }

  predicate PieceOk(p: Piece, rest: seq<Piece>) {
    match p
    case Str(s) => Literal(s, rest == [])
    case Line(s) => LineComment(s, rest == [])
    case Block(s) => BlockComment(s, rest == [])
    case Char(c) => c != '"' && (c == '/' ==> !Slashy(rest))
  }

  /** A text cut into literals, comments and single characters that start neither. */
  predicate Cut(ps: seq<Piece>) {
    ps == [] || (PieceOk(ps[0], ps[1..]) && Cut(ps[1..]))
  }

  // ---- The lengths find those places ----------------------------------------------------

  lemma {:induction false} EscapesWithin(s: string, d: nat, k: nat)
    requires d <= k <= |s|
    requires d == 0 || s[d - 1] != '\\'
    ensures Escapes(s, k) == Escapes(s[d..], k - d)
  {
    if k > d {
      EscapesWithin(s, d, k - 1);
    }
  }

  lemma {:induction false} EscapesPastPair(s: string, k: nat)
    requires 2 <= k <= |s| && s[0] == '\\'
    ensures Escapes(s, k) % 2 == Escapes(s[2..], k - 2) % 2
  {
    if k == 2 {
      assert Escapes(s, 1) == 1;
    } else {
      EscapesPastPair(s, k - 1);
    }
  }

  /** Where the body `u` of a literal ends: `n` is one past the first end quote, or the whole length when there is none. */
  ghost predicate EndsAt(u: string, n: nat)
    requires n <= |u|
  {
    (forall k :: 0 <= k < n - 1 ==> !EndQuote(u, k)) && (n < |u| ==> n >= 1 && EndQuote(u, n - 1))
  }

  lemma EndsAtLater(u: string, d: nat, n: nat)
    requires 1 <= d <= |u| && n <= |u| - d && EndsAt(u[d..], n)
    requires forall k :: d <= k < |u| ==> (EndQuote(u, k) <==> EndQuote(u[d..], k - d))
    requires forall k :: 0 <= k < d ==> !EndQuote(u, k)
    ensures EndsAt(u, d + n)
  {
    forall k | 0 <= k < d + n - 1 ensures !EndQuote(u, k) {
      if k >= d {
        assert !EndQuote(u[d..], k - d);
      }
    }
    if d + n < |u| {
      assert EndQuote(u[d..], n - 1);
    }
  }

  lemma {:induction false} StringEnds(u: string)
    ensures EndsAt(u, StringLength(u))
  {
    if u != [] && u[0] != '"' {
      if u[0] != '\\' {
        StringEnds(u[1..]);
        forall k | 1 <= k < |u| ensures EndQuote(u, k) <==> EndQuote(u[1..], k - 1) {
          EscapesWithin(u, 1, k);
        }
        EndsAtLater(u, 1, StringLength(u[1..]));
      } else if |u| >= 2 {
        StringEnds(u[2..]);
        forall k | 2 <= k < |u| ensures EndQuote(u, k) <==> EndQuote(u[2..], k - 2) {
          EscapesPastPair(u, k);
        }
        assert Escapes(u, 1) == 1;
        EndsAtLater(u, 2, StringLength(u[2..]));
      }
    }
  }

  lemma LiteralBody(s: string, k: nat)
    requires s != [] && s[0] == '"' && 1 <= k < |s|
    ensures EndQuote(s, k) <==> EndQuote(s[1..], k - 1)
  {
    EscapesWithin(s, 1, k);
  }

  lemma {:induction false} EscapesPrefix(s: string, t: string, k: nat)
    requires k <= |s|
    ensures Escapes(s + t, k) == Escapes(s, k)
  {
    if k > 0 {
      EscapesPrefix(s, t, k - 1);
    }
  }

  lemma {:induction false} LineEnds(t: string)
    ensures forall k :: 0 <= k < LineLength(t) - 1 ==> t[k] != '\n'
    ensures LineLength(t) == |t| || (LineLength(t) >= 1 && t[LineLength(t) - 1] == '\n')
  {
    if t != [] && t[0] != '\n' {
      LineEnds(t[1..]);
      assert forall k :: 1 <= k < |t| ==> t[k] == t[1..][k - 1];
    }
  }

  lemma {:induction false} BlockEnds(t: string)
    ensures forall k :: 0 <= k < BlockLength(t) - 2 ==> !StarSlashAt(t, k)
    ensures BlockLength(t) == |t| || (BlockLength(t) >= 2 && StarSlashAt(t, BlockLength(t) - 2))
  {
    if t != [] && !StarSlash(t) {
      BlockEnds(t[1..]);
      assert forall k :: 1 <= k < BlockLength(t) - 2 ==> (StarSlashAt(t, k) <==> StarSlashAt(t[1..], k - 1));
    }
  }

  // ---- The lexer finds the only cut -------------------------------------------------------

  lemma FirstIsLiteral(t: string)
    requires t != [] && t[0] == '"'
    ensures Literal(t[..PieceLength(t)], t[PieceLength(t)..] == [])
  {
    var n := PieceLength(t);
    var s := t[..n];
    StringEnds(t[1..]);
    assert t == s + t[n..];
    forall k | 1 <= k < n ensures EndQuote(s, k) <==> EndQuote(t[1..], k - 1) {
      LiteralBody(t, k);
      EscapesPrefix(s, t[n..], k);
    }
  }

  lemma FirstIsLine(t: string)
    requires StartsLine(t)
    ensures LineComment(t[..PieceLength(t)], t[PieceLength(t)..] == [])
  {
    LineEnds(t[2..]);
    assert forall k :: 2 <= k < |t| ==> t[k] == t[2..][k - 2];
  }

  lemma FirstIsBlock(t: string)
    requires StartsBlock(t)
    ensures BlockComment(t[..PieceLength(t)], t[PieceLength(t)..] == [])
  {
    var n := PieceLength(t);
    BlockEnds(t[2..]);
    assert forall k :: 2 <= k < n - 1 ==> (StarSlashAt(t[..n], k) <==> StarSlashAt(t[2..], k - 2));
  }

  lemma StartOfLex(t: string)
    ensures Lex(t) == [] <==> t == []
    ensures Slashy(Lex(t)) ==> t != [] && (t[0] == '/' || t[0] == '*')
  {
  }

  lemma FirstPieceOk(t: string)
    requires t != []
    ensures PieceOk(FirstPiece(t), Lex(t[PieceLength(t)..]))
  {
    StartOfLex(t[PieceLength(t)..]);
    if t[0] == '"' {
      FirstIsLiteral(t);
    } else if StartsLine(t) {
      FirstIsLine(t);
    } else if StartsBlock(t) {
      FirstIsBlock(t);
    }
  }

  /** The lexer's pieces are a cut of the text. */
  lemma {:induction false} LexCuts(t: string)
    ensures Cut(Lex(t))
  {
    if t != [] {
      LexCuts(t[PieceLength(t)..]);
      LexStep(t);
      FirstPieceOk(t);
    }
  }

  lemma EndIsOne(u: string, n: nat)
    requires n <= |u| && EndsAt(u, n)
    ensures StringLength(u) == n
  {
    StringEnds(u);
  }

  lemma LineIsOne(t: string, n: nat)
    requires n <= |t| && (forall k :: 0 <= k < n - 1 ==> t[k] != '\n') && (n == |t| || (n >= 1 && t[n - 1] == '\n'))
    ensures LineLength(t) == n
  {
    LineEnds(t);
  }

  lemma BlockIsOne(t: string, n: nat)
    requires n <= |t| && (forall k :: 0 <= k < n - 2 ==> !StarSlashAt(t, k)) && (n == |t| || (n >= 2 && StarSlashAt(t, n - 2)))
    ensures BlockLength(t) == n
  {
    BlockEnds(t);
  }

  lemma FirstLiteral(s: string, rest: string)
    requires Literal(s, rest == [])
    ensures PieceLength(s + rest) == |s|
  {
    var t := s + rest;
    forall k | 0 <= k < |s| - 1 ensures EndQuote(t[1..], k) <==> EndQuote(s, k + 1) {
      LiteralBody(t, k + 1);
      EscapesPrefix(s, rest, k + 1);
    }
    EndIsOne(t[1..], |s| - 1);
  }

  lemma FirstLine(s: string, rest: string)
    requires LineComment(s, rest == [])
    ensures PieceLength(s + rest) == |s|
  {
    var t := s + rest;
    assert forall k :: 0 <= k < |s| - 2 ==> t[2..][k] == s[k + 2];
    LineIsOne(t[2..], |s| - 2);
  }

  lemma FirstBlock(s: string, rest: string)
    requires BlockComment(s, rest == [])
    ensures PieceLength(s + rest) == |s|
  {
    var t := s + rest;
    assert forall k :: 0 <= k < |s| - 3 ==> (StarSlashAt(t[2..], k) <==> StarSlashAt(s, k + 2));
    BlockIsOne(t[2..], |s| - 2);
  }

  lemma StartOfRender(ps: seq<Piece>)
    requires Cut(ps) && ps != []
    ensures Render(ps) != [] && (Render(ps)[0] == '/' || Render(ps)[0] == '*' <==> Slashy(ps))
  {
  }

  lemma FirstOfCut(p: Piece, ps: seq<Piece>)
    requires PieceOk(p, ps) && Cut(ps)
    ensures var t := Text(p) + Render(ps); FirstPiece(t) == p && PieceLength(t) == |Text(p)|
  {
    var rest := Render(ps);
    var t := Text(p) + rest;
    if ps != [] {
      StartOfRender(ps);
    }
    match p {
      case Str(s) => FirstLiteral(s, rest);
      case Line(s) => FirstLine(s, rest);
      case Block(s) => FirstBlock(s, rest);
      case Char(c) =>
        assert |t| >= 2 ==> t[1] == rest[0];
    }
    assert t[..|Text(p)|] == Text(p);
  }

  /** There is no other: pieces that are a cut are what the lexer finds in their text. */
  lemma {:induction false} LexRender(ps: seq<Piece>)
    requires Cut(ps)
    ensures Lex(Render(ps)) == ps
  {
    if ps != [] {
      var t := Render(ps);
      LexRender(ps[1..]);
      FirstOfCut(ps[0], ps[1..]);
      assert t[|Text(ps[0])|..] == Render(ps[1..]);
    }
  }

  // ---- Lexing the output finds the cleaned pieces -------------------------------------

  lemma {:induction false} CleanStarts(ps: seq<Piece>)
    requires !Slashy(ps)
    ensures !Slashy(Clean(ps))
  {
    if Dropped(ps) {
      CleanStarts(ps[1..]);
    }
  }

  lemma CutMore(p: Piece, ps: seq<Piece>)
    requires PieceOk(p, ps) && Cut(ps)
    ensures Cut([p] + ps)
  {
    assert ([p] + ps)[1..] == ps;
  }

  /** The cleaned pieces are a cut of their own text. */
  lemma {:induction false} CleanIsCut(ps: seq<Piece>)
    requires Cut(ps)
    ensures Cut(Clean(ps))
  {
    if ps != [] {
      var rest := Clean(ps[1..]);
      CleanIsCut(ps[1..]);
      if ps[0].Line? {
        CutMore(Char('\n'), rest);
      } else if !ps[0].Block? && !Dropped(ps) {
        if ps[0] == Char('/') {
          CleanStarts(ps[1..]);
        }
        CutMore(ps[0], rest);
      }
    }
  }

  /** Reading the output finds the cleaned pieces: no quote or comment mark is ever created. */
  lemma LexStandard(t: string)
    ensures Lex(Standard(t)) == Clean(Lex(t))
  {
    LexCuts(t);
    CleanIsCut(Lex(t));
    LexRender(Clean(Lex(t)));
  }

  lemma {:induction false} CleanKeepsStrings(ps: seq<Piece>)
    ensures Strings(Clean(ps)) == Strings(ps) && !HasComment(Clean(ps))
  {
    if ps != [] {
      CleanKeepsStrings(ps[1..]);
    }
  }

  // ---- The rewrite, place by place --------------------------------------------------------

  /** From place `i` there is white space only, up to a closing bracket at `m`. */
  predicate ClosesAt(ps: seq<Piece>, i: nat, m: nat) {
    i <= m < |ps| && (ps[m] == Char('}') || ps[m] == Char(']')) &&
    forall k :: i <= k < m ==> ps[k].Char? && Space(ps[k].c)
  }

  ghost predicate ClosesFrom(ps: seq<Piece>, i: nat) {
    exists m: nat :: ClosesAt(ps, i, m)
  }

  /** What becomes of the piece at place `k`. */
  ghost function Outcome(ps: seq<Piece>, k: nat): string
    requires k < |ps|
  {
    match ps[k]
    case Str(s) => s
    case Line(_) => "\n"
    case Block(_) => ""
    case Char(c) => if c == ',' && ClosesFrom(ps, k + 1) then "" else [c]
  }

  ghost function Outcomes(ps: seq<Piece>, k: nat): string
    requires k <= |ps|
    decreases |ps| - k
  {
    if k == |ps| then "" else Outcome(ps, k) + Outcomes(ps, k + 1)
  }

  lemma {:induction false} ClosesWhere(ps: seq<Piece>, i: nat)
    requires i <= |ps|
    ensures Closes(ps[i..]) <==> ClosesFrom(ps, i)
    decreases |ps| - i
  {
    if i < |ps| {
      ClosesWhere(ps, i + 1);
      assert ps[i..][1..] == ps[i + 1..];
      if ps[i].Char? && Bracket(ps[i].c) {
        assert ClosesAt(ps, i, i);
      } else if Closes(ps[i..]) {
        var m: nat :| ClosesAt(ps, i + 1, m);
        assert ClosesAt(ps, i, m);
      } else {
        forall m: nat | ClosesAt(ps, i, m) ensures ClosesAt(ps, i + 1, m) {}
      }
    }
  }

  lemma {:induction false} CleanByPlace(ps: seq<Piece>, k: nat)
    requires k <= |ps|
    ensures Render(Clean(ps[k..])) == Outcomes(ps, k)
    decreases |ps| - k
  {
    if k < |ps| {
      var rest := ps[k + 1..];
      CleanByPlace(ps, k + 1);
      ClosesWhere(ps, k + 1);
      assert ps[k..][1..] == rest;
      if ps[k].Line? {
        RenderOne(Char('\n'), Clean(rest));
      } else if !ps[k].Block? && !Dropped(ps[k..]) {
        RenderOne(ps[k], Clean(rest));
      }
    }
  }

  /** However a text is cut into pieces, its standard form is what becomes of each of them. */
  lemma StandardByPlace(ps: seq<Piece>)
    requires Cut(ps)
    ensures Standard(Render(ps)) == Outcomes(ps, 0)
  {
    LexRender(ps);
    CleanByPlace(ps, 0);
    assert ps[0..] == ps;
  }

  /** For every text, the output has the same string literals, verbatim and in order, and no comment. */
  lemma StandardKeepsStrings(t: string)
    ensures Strings(Lex(Standard(t))) == Strings(Lex(t))
    ensures !HasComment(Lex(Standard(t)))
  {
    LexStandard(t);
    CleanKeepsStrings(Lex(t));
  }

  // ---- The program -----------------------------------------------------------------------

  function From(text: string, i: nat): string {
    if i <= |text| then text[i..] else ""
  }

  /** `text.indexOf("*\/", from)`. */
  function IndexOfEnd(text: string, from: nat): (k: int)
    ensures k < 0 || from <= k < |text|
    decreases |text| - from
  {
    if from >= |text| then -1 else if StarSlash(text[from..]) then from else IndexOfEnd(text, from + 1)
  }

  lemma {:induction false} IndexOfEndIsBlockLength(text: string, from: nat)
    requires from <= |text|
    ensures var k := IndexOfEnd(text, from);
            BlockLength(text[from..]) == if k < 0 then |text| - from else k + 2 - from
    decreases |text| - from
  {
    if from < |text| && !StarSlash(text[from..]) {
      IndexOfEndIsBlockLength(text, from + 1);
      assert text[from..][1..] == text[from + 1..];
    }
  }

  /** The end of the literal that starts before `i`; the index may step past a text that ends in a backslash. */
  method SkipString(text: string, start: nat) returns (i: nat)
    requires start < |text|
    ensures i + 1 >= start + 1 + StringLength(text[start + 1..])
    ensures i < |text| ==> i + 1 == start + 1 + StringLength(text[start + 1..])
    ensures i >= |text| ==> |text| == start + 1 + StringLength(text[start + 1..])
    ensures EndsAt(text[start + 1..], if i < |text| then i - start else |text| - start - 1)
  {
    i := start + 1;
    while i < |text| && text[i] != '"'
      invariant start < i
      invariant i <= |text| ==> i + StringLength(text[i..]) == start + 1 + StringLength(text[start + 1..])
      invariant i > |text| ==> |text| == start + 1 + StringLength(text[start + 1..])
    {
      assert text[i..][1..] == text[i + 1..];
      if text[i] == '\\' {
        assert i + 2 <= |text| ==> text[i..][2..] == text[i + 2..];
        i := i + 1;
      }
      i := i + 1;
    }
    StringEnds(text[start + 1..]);
  }

  method SkipLine(text: string, start: nat) returns (i: nat)
    requires start + 2 <= |text| && StartsLine(text[start..])
    ensures i <= |text| && (if i < |text| then i + 1 else i) == start + 2 + LineLength(text[start + 2..])
    ensures (forall k :: start <= k < i ==> text[k] != '\n') && (i < |text| ==> text[i] == '\n')
  {
    i := start;
    while i < |text| && text[i] != '\n'
      invariant start <= i <= |text| && forall k :: start <= k < i ==> text[k] != '\n'
      invariant i < start + 2 || i + LineLength(text[i..]) == start + 2 + LineLength(text[start + 2..])
    {
      assert text[i..][1..] == text[i + 1..];
      i := i + 1;
    }
  }

  /** What the pass adds to its output for the first piece. */
  function Emitted(t: string): string
    requires t != []
  {
    var p := FirstPiece(t);
    if p.Line? then "\n"
    else if p.Block? || (t[0] == ',' && ClosesText(t[1..])) then ""
    else Text(p)
  }

  lemma StandardStep(t: string)
    requires t != []
    ensures Standard(t) == Emitted(t) + Standard(t[PieceLength(t)..])
  {
    var p, rest := FirstPiece(t), Clean(Lex(t[PieceLength(t)..]));
    LexStep(t);
    CommaIsDropped(t);
    if p.Line? {
      RenderOne(Char('\n'), rest);
    } else if !p.Block? && !Dropped(Lex(t)) {
      RenderOne(p, rest);
    }
  }

  method TakeString(text: string, at: nat) returns (i: nat, literal: string)
    requires at < |text| && text[at] == '"'
    ensures i >= at && literal == text[at..][..PieceLength(text[at..])]
    ensures i + 1 == at + PieceLength(text[at..]) || (i + 1 > |text| && at + PieceLength(text[at..]) == |text|)
  {
    i := SkipString(text, at);
    assert text[at..][1..] == text[at + 1..];
    literal := text[at..if i + 1 <= |text| then i + 1 else |text|];
  }

  /** One turn of the loop: what it emits, and where the next one starts. */
  method Turn(text: string, at: nat) returns (i: nat, emitted: string)
    requires at < |text|
    ensures i > at && emitted == Emitted(text[at..])
    ensures i == at + PieceLength(text[at..]) || (i > |text| && at + PieceLength(text[at..]) == |text|)
  {
    var t := text[at..];
    i, emitted := at, "";
    assert t[1..] == text[at + 1..];
    if text[i] == '"' {
      i, emitted := TakeString(text, at);
    } else if StartsLine(t) {
      assert t[2..] == text[at + 2..];
      i := SkipLine(text, at);
      emitted := "\n";
    } else if StartsBlock(t) {
      assert t[2..] == text[at + 2..];
      IndexOfEndIsBlockLength(text, at + 2);
      var end := IndexOfEnd(text, at + 2);
      i := if end < 0 then |text| else end + 1;
    } else if text[i] == ',' && ClosesText(text[at + 1..]) {
    } else {
      emitted := [text[i]];
    }
    i := i + 1;
  }

  lemma LexIsCut(t: string)
    ensures Cut(Lex(t)) && Render(Lex(t)) == t && Standard(t) == Outcomes(Lex(t), 0)
  {
    LexCuts(t);
    RenderLex(t);
    StandardByPlace(Lex(t));
  }

  lemma NextText(text: string, at: nat, i: nat)
    requires at < |text|
    requires i == at + PieceLength(text[at..]) || (i > |text| && at + PieceLength(text[at..]) == |text|)
    ensures From(text, at) == text[at..] && From(text, i) == text[at..][PieceLength(text[at..])..]
  {
  }

  /** One turn adds to the output what it takes from the rest of the text. */
  lemma TurnMore(text: string, at: nat, i: nat, out: string, emitted: string)
    requires at < |text| && emitted == Emitted(text[at..])
    requires i == at + PieceLength(text[at..]) || (i > |text| && at + PieceLength(text[at..]) == |text|)
    ensures out + Standard(From(text, at)) == (out + emitted) + Standard(From(text, i))
  {
    NextText(text, at, i);
    StandardStep(text[at..]);
    Regroup(out, emitted, Standard(From(text, i)));
  }

  /** `pieces` is the cut of the text; the output is what becomes of each piece. */
  method Standardize(text: string) returns (out: string, ghost pieces: seq<Piece>)
    ensures out == Standard(text) && Cut(pieces) && Render(pieces) == text && out == Outcomes(pieces, 0)
  {
    out, pieces := "", Lex(text);
    LexIsCut(text);
    var i := 0;
    assert From(text, 0) == text;
    while i < |text|
      invariant out + Standard(From(text, i)) == Standard(text)
    {
      ghost var at, before := i, out;
      var emitted;
      i, emitted := Turn(text, i);
      out := out + emitted;
      TurnMore(text, at, i, before, emitted);
    }
    assert Standard(From(text, i)) == "";
  }
}
