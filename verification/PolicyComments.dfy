/**
`HasComments` compares two rewrites of a policy file, white space aside: the
standardized text, and the text with its trailing commas cut by one regular
expression that knows nothing of strings or comments.
*/
module PolicyComments {
  import opened Wrappers
  import opened PolicyText

  /** Characters up to and with the bracket of `\s*[}\]]`. */
  function CloseLength(t: string): (n: nat)
    requires ClosesText(t)
    ensures 1 <= n <= |t|
  {
    if Bracket(t[0]) then 1 else 1 + CloseLength(t[1..])
  }

  /** `text.replace(/,(\s*[}\]])/g, "$1")`: matches are found left to right and do not overlap. */
  function StripCommasOnly(t: string): string
    decreases |t|
  {
    if t == [] then ""
    else if t[0] == ',' && ClosesText(t[1..]) then
      var n := 1 + CloseLength(t[1..]);
      t[1..n] + StripCommasOnly(t[n..])
    else [t[0]] + StripCommasOnly(t[1..])
  }

  /** `text.replace(/\s+/g, "")`. */
  function Squeeze(t: string): string {
    if t == [] then "" else (if Space(t[0]) then "" else [t[0]]) + Squeeze(t[1..])
  }

  /** A string literal holds a comma, perhaps white space, and a closing bracket. */
  predicate CommaBracket(s: string) {
    s != [] && ((s[0] == ',' && ClosesText(s[1..])) || CommaBracket(s[1..]))
  }

  predicate MisleadingString(ps: seq<Piece>) {
    exists p :: p in ps && p.Str? && CommaBracket(p.text)
  }

  // ---- Where a comma closes -----------------------------------------------------------

  /** From place `i` there is white space only, up to a closing bracket at `m`. */
  predicate BracketAt(t: string, i: nat, m: nat) {
    i <= m < |t| && (t[m] == '}' || t[m] == ']') && forall k :: i <= k < m ==> Space(t[k])
  }

  ghost predicate BracketFrom(t: string, i: nat) {
    exists m: nat :: BracketAt(t, i, m)
  }

  lemma {:induction false} ClosesTextWhere(t: string, i: nat)
    requires i <= |t|
    ensures ClosesText(t[i..]) <==> BracketFrom(t, i)
    decreases |t| - i
  {
    if i < |t| {
      ClosesTextWhere(t, i + 1);
      assert t[i..][1..] == t[i + 1..];
      if Bracket(t[i]) {
        assert BracketAt(t, i, i);
      } else if ClosesText(t[i..]) {
        var m: nat :| BracketAt(t, i + 1, m);
        assert BracketAt(t, i, m);
      } else {
        forall m: nat | BracketAt(t, i, m) ensures BracketAt(t, i + 1, m) {}
      }
    }
  }

  /** Place `j` has a comma that a bracket follows. */
  ghost predicate CommaAt(t: string, j: nat) {
    j < |t| && t[j] == ',' && BracketFrom(t, j + 1)
  }

  lemma {:induction false} CommaBracketWhere(t: string, i: nat)
    requires i <= |t|
    ensures CommaBracket(t[i..]) <==> exists j :: i <= j && CommaAt(t, j)
    decreases |t| - i
  {
    if i < |t| {
      CommaBracketWhere(t, i + 1);
      ClosesTextWhere(t, i + 1);
      assert t[i..][1..] == t[i + 1..];
      assert CommaAt(t, i) <==> t[i..][0] == ',' && ClosesText(t[i..][1..]);
    }
  }

  // ---- The regular expression, comma by comma ----------------------------------------

  /** Every comma that closes goes, whether or not an earlier match ran up to it. */
  function Stripped(t: string): string {
    if t == [] then ""
    else if t[0] == ',' && ClosesText(t[1..]) then Stripped(t[1..])
    else [t[0]] + Stripped(t[1..])
  }

  lemma AfterFirst(t: string, n: nat)
    requires 1 + n <= |t|
    ensures t[1..][..n] == t[1..n + 1] && t[1..][n..] == t[n + 1..]
  {
  }

  lemma {:induction false} StrippedSpan(t: string)
    requires ClosesText(t)
    ensures Stripped(t) == t[..CloseLength(t)] + Stripped(t[CloseLength(t)..])
  {
    if Bracket(t[0]) {
      assert t[..1] == [t[0]];
    } else {
      var n := CloseLength(t[1..]);
      StrippedSpan(t[1..]);
      AfterFirst(t, n);
      assert t[..n + 1] == [t[0]] + t[1..][..n];
      Regroup([t[0]], t[1..][..n], Stripped(t[n + 1..]));
    }
  }

  lemma StrippedComma(t: string)
    requires t != [] && t[0] == ',' && ClosesText(t[1..])
    ensures var n := CloseLength(t[1..]); Stripped(t) == t[1..n + 1] + Stripped(t[n + 1..])
  {
    var n := CloseLength(t[1..]);
    StrippedSpan(t[1..]);
    AfterFirst(t, n);
  }

  lemma {:induction false} StripIsStripped(t: string)
    ensures StripCommasOnly(t) == Stripped(t)
    decreases |t|
  {
    if t != [] {
      if t[0] == ',' && ClosesText(t[1..]) {
        StripIsStripped(t[CloseLength(t[1..]) + 1..]);
        StrippedComma(t);
      } else {
        StripIsStripped(t[1..]);
      }
    }
  }

  // ---- Counting --------------------------------------------------------------------------

  function Count(t: string, c: char): nat {
    if t == [] then 0 else (if t[0] == c then 1 else 0) + Count(t[1..], c)
  }

  lemma {:induction false} CountAppend(s: string, t: string, c: char)
    ensures Count(s + t, c) == Count(s, c) + Count(t, c)
  {
    if s == [] {
      assert s + t == t;
    } else {
      CountAppend(s[1..], t, c);
      assert (s + t)[1..] == s[1..] + t;
    }
  }

  lemma {:induction false} SqueezeKeepsCount(t: string, c: char)
    requires !Space(c)
    ensures Count(Squeeze(t), c) == Count(t, c)
  {
    if t != [] {
      SqueezeKeepsCount(t[1..], c);
      CountAppend(if Space(t[0]) then "" else [t[0]], Squeeze(t[1..]), c);
    }
  }

  lemma {:induction false} StrippedCounts(t: string)
    ensures Count(Stripped(t), '/') == Count(t, '/')
    ensures Count(Stripped(t), ',') <= Count(t, ',')
    ensures CommaBracket(t) ==> Count(Stripped(t), ',') < Count(t, ',')
    ensures !CommaBracket(t) ==> Stripped(t) == t
  {
    if t != [] {
      StrippedCounts(t[1..]);
      var first := if t[0] == ',' && ClosesText(t[1..]) then "" else [t[0]];
      CountAppend(first, Stripped(t[1..]), '/');
      CountAppend(first, Stripped(t[1..]), ',');
    }
  }

  // ---- With a comment: the slashes differ ----------------------------------------------------

  lemma EmittedSlashes(t: string)
    requires t != []
    ensures Count(Emitted(t), '/') <= Count(Text(FirstPiece(t)), '/')
    ensures Comment(FirstPiece(t)) ==> Count(Emitted(t), '/') < Count(Text(FirstPiece(t)), '/')
  {
    TextOfFirst(t);
  }

  lemma StandardCount(t: string, c: char)
    requires t != []
    ensures Count(Standard(t), c) == Count(Emitted(t), c) + Count(Standard(t[PieceLength(t)..]), c)
  {
    StandardStep(t);
    CountAppend(Emitted(t), Standard(t[PieceLength(t)..]), c);
  }

  lemma PieceCount(t: string, c: char)
    requires t != []
    ensures Count(t, c) == Count(Text(FirstPiece(t)), c) + Count(t[PieceLength(t)..], c)
  {
    TextOfFirst(t);
    assert t == t[..PieceLength(t)] + t[PieceLength(t)..];
    CountAppend(t[..PieceLength(t)], t[PieceLength(t)..], c);
  }

  lemma {:induction false} CommentCostsSlashes(t: string)
    ensures Count(Standard(t), '/') <= Count(t, '/')
    ensures HasComment(Lex(t)) ==> Count(Standard(t), '/') < Count(t, '/')
  {
    if t != [] {
      CommentCostsSlashes(t[PieceLength(t)..]);
      StandardCount(t, '/');
      PieceCount(t, '/');
      EmittedSlashes(t);
      HasCommentStep(t);
    }
  }

  // ---- Without a comment: only commas inside strings can differ ---------------------------------

  /** A text that ends in a quote leaves nothing open: stripping splits after it. */
  lemma {:induction false} ClosesWithinQuoted(s: string, t: string)
    requires s != [] && s[|s| - 1] == '"'
    ensures ClosesText(s + t) <==> ClosesText(s)
  {
    assert (s + t)[0] == s[0];
    if Space(s[0]) {
      assert (s + t)[1..] == s[1..] + t;
      ClosesWithinQuoted(s[1..], t);
    }
  }

  lemma {:induction false} StrippedSplits(s: string, t: string)
    requires s == [] || s[|s| - 1] == '"' || t == []
    ensures Stripped(s + t) == Stripped(s) + Stripped(t)
  {
    if s == [] {
      assert s + t == t;
    } else if t == [] {
      assert s + t == s;
    } else {
      StrippedSplits(s[1..], t);
      assert (s + t)[1..] == s[1..] + t;
      if |s| > 1 {
        ClosesWithinQuoted(s[1..], t);
      }
    }
  }

  /** A literal ends in its quote, or with the text. */
  lemma LiteralEnds(t: string)
    requires t != [] && t[0] == '"'
    ensures t[PieceLength(t) - 1] == '"' || PieceLength(t) == |t|
  {
    FirstIsLiteral(t);
  }

  /** What the regular expression leaves of the first piece of a text without comments. */
  function StrippedPiece(t: string): string
    requires t != []
  {
    if FirstPiece(t).Str? then Stripped(t[..PieceLength(t)]) else Emitted(t)
  }

  lemma StrippedStep(t: string)
    requires t != [] && !Comment(FirstPiece(t))
    ensures Stripped(t) == StrippedPiece(t) + Stripped(t[PieceLength(t)..])
  {
    var n := PieceLength(t);
    if t[0] == '"' {
      LiteralEnds(t);
      assert t == t[..n] + t[n..];
      StrippedSplits(t[..n], t[n..]);
    }
  }

  lemma {:induction false} WithoutComments(t: string)
    requires !HasComment(Lex(t))
    ensures Count(Stripped(t), ',') <= Count(Standard(t), ',')
    ensures MisleadingString(Lex(t)) ==> Count(Stripped(t), ',') < Count(Standard(t), ',')
    ensures !MisleadingString(Lex(t)) ==> Stripped(t) == Standard(t)
  {
    if t != [] {
      var p, rest := FirstPiece(t), t[PieceLength(t)..];
      assert Lex(t) == [p] + Lex(rest);
      assert p in Lex(t) && forall q :: q in Lex(rest) ==> q in Lex(t);
      WithoutComments(rest);
      StandardStep(t);
      StrippedStep(t);
      TextOfFirst(t);
      if p.Str? {
        StrippedCounts(p.text);
      }
      CountAppend(Emitted(t), Standard(rest), ',');
      CountAppend(StrippedPiece(t), Stripped(rest), ',');
      assert MisleadingString(Lex(t)) <==> (p.Str? && CommaBracket(p.text)) || MisleadingString(Lex(rest));
    }
  }

  // ---- The program ------------------------------------------------------------------------------

  lemma HasCommentsDecides(t: string)
    ensures Squeeze(Standard(t)) != Squeeze(StripCommasOnly(t)) <==> HasComment(Lex(t)) || MisleadingString(Lex(t))
  {
    StripIsStripped(t);
    SqueezeKeepsCount(Standard(t), '/');
    SqueezeKeepsCount(Stripped(t), '/');
    SqueezeKeepsCount(Standard(t), ',');
    SqueezeKeepsCount(Stripped(t), ',');
    StrippedCounts(t);
    CommentCostsSlashes(t);
    if !HasComment(Lex(t)) {
      WithoutComments(t);
    }
  }

  /**
  The answer is yes if and only if the text has a comment outside its strings,
  or one of its strings holds a comma before a closing bracket.
  */
  method HasComments(text: string) returns (yes: bool)
    ensures yes <==> HasComment(Lex(text)) || MisleadingString(Lex(text))
  {
    var standard, _ := Standardize(text);
    yes := Squeeze(standard) != Squeeze(StripCommasOnly(text));
    HasCommentsDecides(text);
  }

  /** The second case is real: this text is one string, has no comment, and the answer is yes. */
  lemma CommentFreeAndYes()
    ensures !HasComment(Lex("\",]\"")) && MisleadingString(Lex("\",]\""))
    ensures Squeeze(Standard("\",]\"")) != Squeeze(StripCommasOnly("\",]\""))
  {
    var t := "\",]\"";
    assert t[1..] == ",]\"" && t[1..][1..] == "]\"" && t[1..][1..][1..] == "\"";
    assert StringLength(t[1..][1..][1..]) == 1;
    assert StringLength(t[1..][1..]) == 2;
    assert StringLength(t[1..]) == 3;
    assert t[..4] == t && t[4..] == "";
    assert Lex(t) == [Str(t)];
    assert CommaBracket(t[1..]);
    HasCommentsDecides(t);
  }
}
