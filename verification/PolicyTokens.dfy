/**
What standardizing keeps of a policy's meaning: its tokens, less the trailing
commas; exactly when that holds; and when the pass changes nothing.
*/
module PolicyTokens {
  import opened Wrappers
  import opened PolicyText

  datatype Token = Word(text: string) | Quoted(text: string) | Punct(c: char)

  predicate Punctuation(c: char) {
    c in {'{', '}', '[', ']', ':', ','}
  }

  predicate Wordy(p: Piece) {
    p.Char? && !Space(p.c) && !Punctuation(p.c)
  }

  predicate StartsWord(ps: seq<Piece>) {
    ps != [] && Wordy(ps[0])
  }

  /** Adjacent bare characters make one word; white space and comments separate. */
  function Tokens(ps: seq<Piece>): (r: seq<Token>)
    ensures StartsWord(ps) ==> r != [] && r[0].Word?
  {
    if ps == [] then []
    else
      var rest := Tokens(ps[1..]);
      match ps[0]
      case Str(s) => [Quoted(s)] + rest
      case Char(c) =>
        if Space(c) then rest
        else if Punctuation(c) then [Punct(c)] + rest
        else if StartsWord(ps[1..]) then [Word([c] + rest[0].text)] + rest[1..]
        else [Word([c])] + rest
      case _ => rest
  }

  predicate ClosingToken(ts: seq<Token>) {
    ts != [] && (ts[0] == Punct('}') || ts[0] == Punct(']'))
  }

  /** The reference: a comma goes when the next token closes a bracket. */
  function WithoutTrailing(ts: seq<Token>): seq<Token> {
    if ts == [] then []
    else if ts[0] == Punct(',') && ClosingToken(ts[1..]) then WithoutTrailing(ts[1..])
    else [ts[0]] + WithoutTrailing(ts[1..])
  }

  // ---- The two ways it can go wrong ---------------------------------------------

  /** White space and comments up to a closing bracket. */
  predicate ClosesPastComments(ps: seq<Piece>) {
    ps != [] &&
    if Comment(ps[0]) || (ps[0].Char? && Space(ps[0].c)) then ClosesPastComments(ps[1..])
    else ps[0].Char? && Bracket(ps[0].c)
  }

  /** No comment stands between a comma and the bracket that closes after it. */
  predicate NoHiddenComma(ps: seq<Piece>) {
    ps == [] ||
    (NoHiddenComma(ps[1..]) && (ps[0] == Char(',') && ClosesPastComments(ps[1..]) ==> Closes(ps[1..])))
  }

  /** Block comments, at least one, and then a bare character. */
  predicate BlocksThenWord(ps: seq<Piece>) {
    ps != [] && ps[0].Block? && (StartsWord(ps[1..]) || BlocksThenWord(ps[1..]))
  }

  /** No block comment is all that separates two bare characters. */
  predicate NoGlue(ps: seq<Piece>) {
    ps == [] || (NoGlue(ps[1..]) && (StartsWord(ps) ==> !BlocksThenWord(ps[1..])))
  }

  // ---- Facts about one piece ------------------------------------------------------------

  lemma {:induction false} ClosesIsToken(ps: seq<Piece>)
    ensures ClosesPastComments(ps) <==> ClosingToken(Tokens(ps))
    ensures Closes(ps) ==> ClosesPastComments(ps)
  {
    if ps != [] {
      ClosesIsToken(ps[1..]);
    }
  }

  lemma {:induction false} CleanStartsWord(ps: seq<Piece>)
    ensures StartsWord(Clean(ps)) <==> StartsWord(ps) || BlocksThenWord(ps)
  {
    if ps != [] {
      if ps[0].Block? {
        CleanStartsWord(ps[1..]);
      } else if Dropped(ps) {
        assert Clean(ps[1..])[0] == ps[1];
      }
    }
  }

  // ---- Sufficient ------------------------------------------------------------------------

  lemma {:induction false} TokensOfClean(ps: seq<Piece>)
    requires NoHiddenComma(ps) && NoGlue(ps)
    ensures Tokens(Clean(ps)) == WithoutTrailing(Tokens(ps))
  {
    if ps != [] {
      TokensOfClean(ps[1..]);
      ClosesIsToken(ps[1..]);
      CleanStartsWord(ps[1..]);
      if !Comment(ps[0]) && !Dropped(ps) {
        assert Clean(ps)[1..] == Clean(ps[1..]);
      }
    }
  }

  // ---- Necessary: counting words and commas ---------------------------------------------------

  function Words(ts: seq<Token>): nat {
    if ts == [] then 0 else (if ts[0].Word? then 1 else 0) + Words(ts[1..])
  }

  function Commas(ts: seq<Token>): nat {
    if ts == [] then 0 else (if ts[0] == Punct(',') then 1 else 0) + Commas(ts[1..])
  }

  lemma {:induction false} TrailingKeepsWords(ts: seq<Token>)
    ensures Words(WithoutTrailing(ts)) == Words(ts)
  {
    if ts != [] {
      TrailingKeepsWords(ts[1..]);
    }
  }

  lemma WordsOfTokens(p: Piece, ps: seq<Piece>)
    ensures Words(Tokens([p] + ps)) == Words(Tokens(ps)) + if Wordy(p) && !StartsWord(ps) then 1 else 0
  {
    assert ([p] + ps)[1..] == ps;
  }

  lemma {:induction false} CountWords(ps: seq<Piece>)
    ensures Words(Tokens(Clean(ps))) <= Words(Tokens(ps))
    ensures !NoGlue(ps) ==> Words(Tokens(Clean(ps))) < Words(Tokens(ps))
  {
    if ps != [] {
      var p, rest := ps[0], ps[1..];
      assert ps == [p] + rest;
      CountWords(rest);
      WordsOfTokens(p, rest);
      CleanStartsWord(rest);
      if p.Line? {
        WordsOfTokens(Char('\n'), Clean(rest));
      } else if !p.Block? && !Dropped(ps) {
        WordsOfTokens(p, Clean(rest));
      }
    }
  }

  lemma CommasOfTokens(p: Piece, ps: seq<Piece>)
    ensures Commas(Tokens([p] + ps)) == Commas(Tokens(ps)) + if p == Char(',') then 1 else 0
  {
    assert ([p] + ps)[1..] == ps;
  }

  lemma CommasLeft(p: Piece, ps: seq<Piece>)
    ensures Commas(WithoutTrailing(Tokens([p] + ps))) ==
            Commas(WithoutTrailing(Tokens(ps))) + if p == Char(',') && !ClosesPastComments(ps) then 1 else 0
  {
    assert ([p] + ps)[1..] == ps;
    ClosesIsToken(ps);
  }

  lemma {:induction false} CountCommas(ps: seq<Piece>)
    ensures Commas(Tokens(Clean(ps))) >= Commas(WithoutTrailing(Tokens(ps)))
    ensures !NoHiddenComma(ps) ==> Commas(Tokens(Clean(ps))) > Commas(WithoutTrailing(Tokens(ps)))
  {
    if ps != [] {
      var p, rest := ps[0], ps[1..];
      assert ps == [p] + rest;
      CountCommas(rest);
      CommasLeft(p, rest);
      ClosesIsToken(rest);
      if p.Line? {
        CommasOfTokens(Char('\n'), Clean(rest));
      } else if !p.Block? && !Dropped(ps) {
        CommasOfTokens(p, Clean(rest));
      }
    }
  }

  /**
  The output's tokens are the input's less exactly its trailing commas, if and
  only if no comment hides a trailing comma and none glues two words together.
  */
  lemma StandardKeepsTokens(t: string)
    ensures Tokens(Lex(Standard(t))) == WithoutTrailing(Tokens(Lex(t))) <==> NoHiddenComma(Lex(t)) && NoGlue(Lex(t))
  {
    var ps := Lex(t);
    LexStandard(t);
    if NoHiddenComma(ps) && NoGlue(ps) {
      TokensOfClean(ps);
    } else {
      TrailingKeepsWords(Tokens(ps));
      CountWords(ps);
      CountCommas(ps);
    }
  }

  lemma LexGlued(t: string)
    requires t == "a/**/b"
    ensures Lex(t) == [Char('a'), Block("/**/"), Char('b')]
  {
    assert t[1..] == "/**/b" && t[1..][2..] == "**/b"[1..] == "*/b";
    assert FirstPiece(t[1..]) == Block("/**/");
    assert t[1..][4..] == "b";
    assert Lex("b") == [Char('b')];
    assert Lex(t[1..]) == [Block("/**/"), Char('b')];
  }

  lemma PiecesGlue(ps: seq<Piece>)
    requires ps == [Char('a'), Block("/**/"), Char('b')]
    ensures !NoGlue(ps)
  {
    assert ps[1..][1..] == [Char('b')];
  }

  /** Words are glued: a comment that separates two words is gone and they become one. */
  lemma CommentGlues(t: string)
    requires t == "a/**/b"
    ensures Tokens(Lex(Standard(t))) != WithoutTrailing(Tokens(Lex(t)))
  {
    LexGlued(t);
    PiecesGlue(Lex(t));
    StandardKeepsTokens(t);
  }

  // ---- Identity and idempotence ---------------------------------------------------------------

  predicate NoDropped(ps: seq<Piece>) {
    ps == [] || (NoDropped(ps[1..]) && !Dropped(ps))
  }

  lemma EmittedShrinks(t: string)
    requires t != []
    ensures |Emitted(t)| < PieceLength(t) <==> Comment(FirstPiece(t)) || Dropped(Lex(t))
    ensures Emitted(t) == Text(FirstPiece(t)) <==> !Comment(FirstPiece(t)) && !Dropped(Lex(t))
    ensures |Emitted(t)| <= PieceLength(t)
  {
    TextOfFirst(t);
    CommaIsDropped(t);
  }

  lemma SameHalves(a: string, b: string, t: string, n: nat)
    requires |a| <= n <= |t| && |b| <= |t| - n
    ensures |a + b| <= |t| && (a + b == t <==> a == t[..n] && b == t[n..])
  {
    if a + b == t {
      assert |a| == n;
      assert (a + b)[..n] == a && (a + b)[n..] == b;
    }
    assert t[..n] + t[n..] == t;
  }

  lemma StandardSame(t: string)
    requires t != [] && |Standard(t[PieceLength(t)..])| <= |t[PieceLength(t)..]|
    ensures |Standard(t)| <= |t|
    ensures Standard(t) == t <==>
            Emitted(t) == Text(FirstPiece(t)) && Standard(t[PieceLength(t)..]) == t[PieceLength(t)..]
  {
    StandardStep(t);
    EmittedShrinks(t);
    TextOfFirst(t);
    SameHalves(Emitted(t), Standard(t[PieceLength(t)..]), t, PieceLength(t));
  }

  lemma {:induction false} StandardShrinks(t: string)
    ensures |Standard(t)| <= |t|
    ensures Standard(t) == t <==> !HasComment(Lex(t)) && NoDropped(Lex(t))
  {
    if t != [] {
      StandardShrinks(t[PieceLength(t)..]);
      StandardSame(t);
      EmittedShrinks(t);
      LexStep(t);
      HasCommentStep(t);
    }
  }

  /** The pass leaves a text alone if and only if it has no comment and no trailing comma. */
  lemma StandardIsIdentity(t: string)
    ensures Standard(t) == t <==> !HasComment(Lex(t)) && NoDropped(Lex(t))
  {
    StandardShrinks(t);
  }

  /** White space, comments and commas up to a closing bracket. */
  predicate ClosesPastCommas(ps: seq<Piece>) {
    ps != [] &&
    if Comment(ps[0]) || (ps[0].Char? && Space(ps[0].c)) || ps[0] == Char(',') then ClosesPastCommas(ps[1..])
    else ps[0].Char? && Bracket(ps[0].c)
  }

  /** Every comma with only white space, comments and commas before a closing bracket is dropped at once. */
  predicate NoLeftover(ps: seq<Piece>) {
    ps == [] ||
    (NoLeftover(ps[1..]) && (ps[0] == Char(',') && ClosesPastCommas(ps[1..]) ==> Closes(ps[1..])))
  }

  lemma {:induction false} ClosesIsPastCommas(ps: seq<Piece>)
    requires Closes(ps)
    ensures ClosesPastCommas(ps)
  {
    if !Bracket(ps[0].c) {
      ClosesIsPastCommas(ps[1..]);
    }
  }

  lemma {:induction false} CleanCloses(ps: seq<Piece>)
    ensures Closes(Clean(ps)) ==> ClosesPastCommas(ps)
    ensures NoLeftover(ps) ==> (Closes(Clean(ps)) <==> ClosesPastCommas(ps))
  {
    if ps != [] {
      CleanCloses(ps[1..]);
      if ps[0].Line? {
        assert Clean(ps)[1..] == Clean(ps[1..]);
      } else if Dropped(ps) {
        ClosesIsPastCommas(ps[1..]);
      } else if !ps[0].Block? {
        assert Clean(ps)[1..] == Clean(ps[1..]);
      }
    }
  }

  lemma {:induction false} LeftoverIsDropped(ps: seq<Piece>)
    ensures NoDropped(Clean(ps)) <==> NoLeftover(ps)
  {
    if ps != [] {
      LeftoverIsDropped(ps[1..]);
      CleanCloses(ps[1..]);
      if ps[0].Line? || (!ps[0].Block? && !Dropped(ps)) {
        assert Clean(ps)[1..] == Clean(ps[1..]);
      }
    }
  }

  /** A second pass changes nothing if and only if the first left no comma before a closing bracket. */
  lemma StandardIsIdempotent(t: string)
    ensures Standard(Standard(t)) == Standard(t) <==> NoLeftover(Lex(t))
  {
    StandardIsIdentity(Standard(t));
    StandardKeepsStrings(t);
    LexStandard(t);
    LeftoverIsDropped(Lex(t));
  }

  lemma LexHidden(t: string)
    requires t == ",/**/]"
    ensures Lex(t) == [Char(','), Block("/**/"), Char(']')]
  {
    assert t[1..] == "/**/]" && t[1..][2..] == "**/]"[1..] == "*/]";
    assert FirstPiece(t[1..]) == Block("/**/");
    assert t[1..][4..] == "]";
    assert Lex("]") == [Char(']')];
    assert Lex(t[1..]) == [Block("/**/"), Char(']')];
  }

  lemma LexTrailing(t: string)
    requires t == ",]"
    ensures Lex(t) == [Char(','), Char(']')]
  {
    assert t[1..] == "]" && Lex("]") == [Char(']')];
  }

  lemma CleanHidden(hidden: seq<Piece>, trailing: seq<Piece>, closing: seq<Piece>)
    requires hidden == [Char(','), Block("/**/"), Char(']')] && trailing == [Char(','), Char(']')] && closing == [Char(']')]
    ensures Clean(hidden) == trailing && Clean(trailing) == closing
    ensures Render(trailing) == ",]" && Render(closing) == "]"
  {
    assert closing[1..] == [] && Clean(closing) == closing && Render(closing) == "]";
    assert trailing[1..] == closing && hidden[1..][1..] == closing;
    assert Clean(hidden[1..]) == closing;
  }

  /** The pass is not idempotent: a comment after the comma hides it from the first pass only. */
  lemma HiddenCommaSurvives(t: string)
    requires t == ",/**/]"
    ensures Standard(t) == ",]" && Standard(Standard(t)) == "]"
  {
    LexHidden(t);
    LexTrailing(",]");
    CleanHidden([Char(','), Block("/**/"), Char(']')], [Char(','), Char(']')], [Char(']')]);
  }
}
