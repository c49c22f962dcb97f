/**
The machines search box: `key:value` tokens filter, the other words are free text,
and the filter menu only adds, changes and removes tokens in that text.
*/
module MachineFilter {
  import opened Wrappers

  datatype Key = Status | Os | Tag | Owner

  datatype Filter = Filter(key: Key, value: string)

  // ---- Characters ------------------------------------------------------------------

  predicate Letter(c: char) {
    'a' <= c <= 'z' || 'A' <= c <= 'Z'
  }

  function LowerChar(c: char): char {
    if 'A' <= c <= 'Z' then c - 'A' + 'a' else c
  }

  function Lower(s: string): (r: string)
    ensures |r| == |s| && forall i :: 0 <= i < |s| ==> r[i] == LowerChar(s[i])
  {
    seq(|s|, i requires 0 <= i < |s| => LowerChar(s[i]))
  }

  /** ASCII letters change case, letter by letter, and nothing else does. */
  lemma LowerAlphabet(upper: string, lower: string, c: char)
    requires upper == "ABCDEFGHIJKLMNOPQRSTUVWXYZ" && lower == "abcdefghijklmnopqrstuvwxyz"
    ensures forall i :: 0 <= i < 26 ==> LowerChar(upper[i]) == lower[i]
    ensures c !in upper ==> LowerChar(c) == c
  {
    forall i | 0 <= i < 26 ensures upper[i] == 'A' + i as char && lower[i] == 'a' + i as char {}
    if 'A' <= c <= 'Z' {
      assert upper[(c - 'A') as int] == c;
    }
  }

  predicate Spaceless(s: string) {
    forall i :: 0 <= i < |s| ==> !Space(s[i])
  }

  predicate Word(s: string) {
    s != "" && Spaceless(s)
  }

  // ---- Words -----------------------------------------------------------------------

  /** How many characters come before the first space. */
  function WordLength(s: string): (n: nat)
    ensures n <= |s| && Spaceless(s[..n]) && (n == |s| || Space(s[n]))
  {
    if s == "" || Space(s[0]) then 0 else 1 + WordLength(s[1..])
  }

  /** What splitting on runs of white space and dropping empty pieces leaves. */
  function Words(s: string): seq<string>
    decreases |s|
  {
    if s == "" then []
    else if Space(s[0]) then Words(s[1..])
    else
      var n := WordLength(s);
      [s[..n]] + Words(s[n..])
  }

  function Join(words: seq<string>): string {
    if words == [] then ""
    else if |words| == 1 then words[0]
    else words[0] + " " + Join(words[1..])
  }

  predicate AllWords(words: seq<string>) {
    forall word :: word in words ==> Word(word)
  }

  lemma {:induction false} WordsAreWords(s: string)
    ensures AllWords(Words(s))
    decreases |s|
  {
    if s != "" {
      if Space(s[0]) {
        WordsAreWords(s[1..]);
      } else {
        WordsAreWords(s[WordLength(s)..]);
      }
    }
  }

  lemma {:induction false} WordLengthAppend(a: string, b: string)
    requires b == "" || Space(b[0])
    ensures WordLength(a + b) == WordLength(a)
  {
    if a == "" {
      assert a + b == b;
    } else if !Space(a[0]) {
      assert (a + b)[1..] == a[1..] + b;
      WordLengthAppend(a[1..], b);
    }
  }

  lemma Halves(a: string, b: string, n: nat)
    requires n <= |a|
    ensures (a + b)[..n] == a[..n] && (a + b)[n..] == a[n..] + b
  {
  }

  /** A space keeps words apart: texts on both sides are split on their own. */
  lemma {:induction false} WordsAppend(a: string, b: string)
    requires b == "" || Space(b[0])
    ensures Words(a + b) == Words(a) + Words(b)
    decreases |a|
  {
    if a == "" {
      assert a + b == b;
    } else if Space(a[0]) {
      assert (a + b)[1..] == a[1..] + b;
      WordsAppend(a[1..], b);
    } else {
      var n := WordLength(a);
      WordsAppend(a[n..], b);
      WordLengthAppend(a, b);
      Halves(a, b, n);
      calc {
        Words(a + b);
        [(a + b)[..n]] + Words((a + b)[n..]);
        [a[..n]] + (Words(a[n..]) + Words(b));
        ([a[..n]] + Words(a[n..])) + Words(b);
      }
    }
  }

  /** Any white space keeps words apart. */
  lemma WordsApart(a: string, space: char, b: string)
    requires Space(space)
    ensures Words(a + [space] + b) == Words(a) + Words(b)
  {
    assert a + [space] + b == a + ([space] + b);
    WordsAppend(a, [space] + b);
    assert ([space] + b)[1..] == b;
  }

  lemma WordsOfWord(w: string)
    requires Word(w)
    ensures Words(w) == [w]
  {
    assert WordLength(w) == |w|;
    assert w[..|w|] == w && w[|w|..] == "";
  }

  /** Joining words and splitting them again gives the words back. */
  lemma {:induction false} WordsOfJoin(words: seq<string>)
    requires AllWords(words)
    ensures Words(Join(words)) == words
  {
    if |words| == 1 {
      WordsOfWord(words[0]);
    } else if words != [] {
      var rest := words[1..];
      WordsOfJoin(rest);
      WordsOfWord(words[0]);
      WordsApart(words[0], ' ', Join(rest));
      assert words == [words[0]] + rest;
    }
  }

  lemma {:induction false} JoinLast(words: seq<string>, last: string)
    requires words != []
    ensures Join(words + [last]) == Join(words) + " " + last
  {
    var rest := words[1..];
    assert (words + [last])[1..] == rest + [last];
    if rest == [] {
      assert rest + [last] == [last];
    } else {
      JoinLast(rest, last);
    }
  }

  /** A text added at the end is split on its own. */
  lemma WordsOfJoinAnd(words: seq<string>, last: string)
    requires AllWords(words)
    ensures Words(Join(words + [last])) == words + Words(last)
  {
    if words == [] {
      assert words + [last] == [last];
    } else {
      JoinLast(words, last);
      WordsApart(Join(words), ' ', last);
      WordsOfJoin(words);
    }
  }

  // ---- Tokens ----------------------------------------------------------------------

  function KeyText(key: Key): string {
    match key
    case Status => "status"
    case Os => "os"
    case Tag => "tag"
    case Owner => "owner"
  }

  function KeyNamed(text: string): Option<Key> {
    if text == "status" then Some(Status)
    else if text == "os" then Some(Os)
    else if text == "tag" then Some(Tag)
    else if text == "owner" then Some(Owner)
    else None
  }

  predicate TagStart(c: char) {
    'a' <= c <= 'z' || '0' <= c <= '9'
  }

  predicate TagChar(c: char) {
    TagStart(c) || c == '.' || c == '_' || c == '-'
  }

  predicate TagName(s: string) {
    1 <= |s| <= 63 && TagStart(s[0]) && forall i :: 0 <= i < |s| ==> TagChar(s[i])
  }

  predicate Allowed(key: Key, value: string) {
    match key
    case Status => value in ["online", "offline", "revoked"]
    case Os => value in ["macos", "linux", "windows"]
    case Tag => TagName(value)
    case Owner => value in ["me", "shared"]
  }

  function Letters(s: string): (n: nat)
    ensures n <= |s| && (n == |s| || !Letter(s[n]))
    ensures forall i :: 0 <= i < n ==> Letter(s[i])
  {
    if s == "" || !Letter(s[0]) then 0 else 1 + Letters(s[1..])
  }

  /** The filter a token stands for, in lower case; other tokens are free text. */
  function AsFilter(token: string): (r: Option<Filter>)
    ensures r.Some? ==> Allowed(r.value.key, r.value.value)
  {
    var n := Letters(token);
    if n == 0 || n == |token| || token[n] != ':' || !Word(token[n + 1..]) then None
    else
      var key := KeyNamed(Lower(token[..n]));
      var value := Lower(token[n + 1..]);
      if key.Some? && Allowed(key.value, value) then Some(Filter(key.value, value)) else None
  }

  function Token(key: Key, value: string): string {
    KeyText(key) + ":" + value
  }

  lemma SpaceKeepsCase(s: string)
    ensures Spaceless(Lower(s)) <==> Spaceless(s)
  {
    forall i | 0 <= i < |s| ensures Space(s[i]) <==> Space(Lower(s)[i]) {}
    if Spaceless(Lower(s)) {
      forall i | 0 <= i < |s| ensures !Space(s[i]) {
        assert !Space(Lower(s)[i]);
      }
    }
  }

  lemma AllowedIsWord(key: Key, value: string)
    requires Allowed(key, value)
    ensures Word(value)
  {
    if key == Tag {
      forall i | 0 <= i < |value| ensures !Space(value[i]) {
        assert TagChar(value[i]);
      }
    }
  }

  lemma KeyTextNamed(key: Key)
    ensures Lower(KeyText(key)) == KeyText(key) && KeyNamed(KeyText(key)) == Some(key)
    ensures Spaceless(KeyText(key)) && forall i :: 0 <= i < |KeyText(key)| ==> Letter(KeyText(key)[i])
  {
  }

  /** The parts of `s:rest`. */
  lemma ColonSplits(s: string, rest: string)
    requires forall i :: 0 <= i < |s| ==> Letter(s[i])
    ensures var t := s + ":" + rest;
            Letters(t) == |s| && t[|s|] == ':' && t[..|s|] == s && t[|s| + 1..] == rest
    ensures Spaceless(s) && Spaceless(rest) ==> Word(s + ":" + rest)
  {
    var t := s + ":" + rest;
    assert forall i :: 0 <= i < |s| ==> t[i] == s[i];
    assert forall i :: |s| < i < |t| ==> t[i] == rest[i - |s| - 1];
    assert t[|s|] == ':';
  }

  /** A token made for an allowed value is read as that filter, whatever the case it was written in. */
  lemma TokenIsFilter(key: Key, value: string)
    requires Allowed(key, Lower(value))
    ensures Word(Token(key, value)) && AsFilter(Token(key, value)) == Some(Filter(key, Lower(value)))
  {
    AllowedIsWord(key, Lower(value));
    SpaceKeepsCase(value);
    KeyTextNamed(key);
    ColonSplits(KeyText(key), value);
  }

  /** A token made for any other word is free text. */
  lemma TokenIsFree(key: Key, value: string)
    requires Word(value) && !Allowed(key, Lower(value))
    ensures Word(Token(key, value)) && AsFilter(Token(key, value)) == None
  {
    KeyTextNamed(key);
    ColonSplits(KeyText(key), value);
  }

  lemma LowerSlices(s: string, n: nat)
    requires n <= |s|
    ensures Lower(s[..n]) == Lower(s)[..n] && Lower(s[n..]) == Lower(s)[n..] && Lower(Lower(s)) == Lower(s)
  {
  }

  lemma LettersKeepCase(s: string)
    ensures Letters(Lower(s)) == Letters(s)
  {
    var n := Letters(s);
    assert forall i :: 0 <= i < |s| ==> (Letter(Lower(s)[i]) <==> Letter(s[i]));
    assert n < |s| ==> !Letter(Lower(s)[n]);
    assert Letters(Lower(s)) < |s| ==> !Letter(s[Letters(Lower(s))]);
  }

  /** Case does not matter, of the key or the value. */
  lemma CaseDoesNotMatter(token: string)
    ensures AsFilter(Lower(token)) == AsFilter(token)
  {
    var n := Letters(token);
    LettersKeepCase(token);
    LowerSlices(token, n);
    if n < |token| {
      LowerSlices(token, n + 1);
      LowerSlices(token[n + 1..], 0);
      LowerSlices(token[..n], 0);
      SpaceKeepsCase(token[n + 1..]);
    }
  }

  lemma AllowedIsLower(key: Key, value: string)
    requires Allowed(key, value)
    ensures Lower(value) == value
  {
    if key == Tag {
      assert forall i :: 0 <= i < |value| ==> TagChar(value[i]);
    }
  }

  lemma KeyNamedIs(text: string)
    requires KeyNamed(text).Some?
    ensures KeyText(KeyNamed(text).value) == text
  {
  }

  lemma ColonJoins(token: string, n: nat, key: string, value: string)
    requires n < |token| && token[n] == ':' && key == Lower(token[..n]) && value == Lower(token[n + 1..])
    ensures Lower(token) == key + ":" + value
  {
    LowerSlices(token, n);
    LowerSlices(token, n + 1);
    assert Lower(token)[n] == ':';
  }

  lemma SpelledBy(token: string, n: nat, key: Key, value: string)
    requires n < |token| && token[n] == ':' && KeyNamed(Lower(token[..n])) == Some(key) && value == Lower(token[n + 1..])
    ensures Lower(token) == Token(key, value)
  {
    KeyNamedIs(Lower(token[..n]));
    ColonJoins(token, n, Lower(token[..n]), value);
  }

  lemma FilterSpells(token: string)
    requires AsFilter(token).Some?
    ensures Lower(token) == Token(AsFilter(token).value.key, AsFilter(token).value.value)
  {
    SpelledBy(token, Letters(token), AsFilter(token).value.key, AsFilter(token).value.value);
  }

  /** A token is a filter if and only if it spells, in any case, a key, a colon and a value the key allows. */
  lemma FilterIsToken(token: string, key: Key, value: string)
    ensures AsFilter(token) == Some(Filter(key, value)) <==> Allowed(key, value) && Lower(token) == Token(key, value)
  {
    if AsFilter(token).Some? {
      FilterSpells(token);
    }
    if Allowed(key, value) && Lower(token) == Token(key, value) {
      AllowedIsLower(key, value);
      TokenIsFilter(key, value);
      CaseDoesNotMatter(token);
    }
  }

  // ---- Lists of tokens, for any reading of tokens ----------------------------------

  type Filters = map<Key, string>
  type Reader = string -> Option<Filter>

  predicate Names(read: Reader, token: string, key: Key) {
    read(token).Some? && read(token).value.key == key
  }

  function FiltersOf(read: Reader, tokens: seq<string>): Filters {
    if tokens == [] then map[]
    else
      var before, last := FiltersOf(read, tokens[..|tokens| - 1]), read(tokens[|tokens| - 1]);
      if last.Some? then before[last.value.key := last.value.value] else before
  }

  /** The tokens that are not filters. */
  function Free(read: Reader, tokens: seq<string>): seq<string> {
    if tokens == [] then []
    else
      var before, last := Free(read, tokens[..|tokens| - 1]), tokens[|tokens| - 1];
      if read(last).Some? then before else before + [last]
  }

  /** The tokens that do not name `key`. */
  function Kept(read: Reader, tokens: seq<string>, key: Key): seq<string> {
    if tokens == [] then []
    else
      var before, last := Kept(read, tokens[..|tokens| - 1], key), tokens[|tokens| - 1];
      if Names(read, last, key) then before else before + [last]
  }

  /** The tokens at the given places. */
  function Picked(tokens: seq<string>, places: seq<nat>): seq<string>
    requires Rising(places, |tokens|)
  {
    seq(|places|, i requires 0 <= i < |places| => tokens[places[i]])
  }

  lemma PickedMore(tokens: seq<string>, places: seq<nat>)
    requires tokens != [] && Rising(places, |tokens| - 1)
    ensures var n := |tokens| - 1;
            Picked(tokens, places) == Picked(tokens[..n], places) && Rising(places + [n], n + 1) &&
            Picked(tokens, places + [n]) == Picked(tokens[..n], places) + [tokens[n]]
  {
  }

  /** The free tokens stay in their order, every one of them. */
  lemma {:induction false} FreePlaces(read: Reader, tokens: seq<string>) returns (places: seq<nat>)
    ensures Rising(places, |tokens|) && Free(read, tokens) == Picked(tokens, places)
    ensures forall i :: 0 <= i < |tokens| ==> (i in places <==> read(tokens[i]).None?)
  {
    places := [];
    if tokens != [] {
      var n := |tokens| - 1;
      places := FreePlaces(read, tokens[..n]);
      PickedMore(tokens, places);
      assert forall i :: 0 <= i < n ==> tokens[..n][i] == tokens[i];
      if read(tokens[n]).None? {
        places := places + [n];
      }
    }
  }

  /** So do the tokens that do not name a key. */
  lemma {:induction false} KeptPlaces(read: Reader, tokens: seq<string>, key: Key) returns (places: seq<nat>)
    ensures Rising(places, |tokens|) && Kept(read, tokens, key) == Picked(tokens, places)
    ensures forall i :: 0 <= i < |tokens| ==> (i in places <==> read(tokens[i]).None? || read(tokens[i]).value.key != key)
  {
    places := [];
    if tokens != [] {
      var n := |tokens| - 1;
      places := KeptPlaces(read, tokens[..n], key);
      PickedMore(tokens, places);
      assert forall i :: 0 <= i < n ==> tokens[..n][i] == tokens[i];
      if !Names(read, tokens[n], key) {
        places := places + [n];
      }
    }
  }

  /** The last token of a key wins, and a key no token names has no filter. */
  lemma {:induction false} LastWins(read: Reader, tokens: seq<string>, key: Key)
    ensures key !in FiltersOf(read, tokens) ==> forall i :: 0 <= i < |tokens| ==> !Names(read, tokens[i], key)
    ensures key in FiltersOf(read, tokens) ==>
              exists i :: 0 <= i < |tokens| && read(tokens[i]) == Some(Filter(key, FiltersOf(read, tokens)[key])) &&
                forall j :: i < j < |tokens| ==> !Names(read, tokens[j], key)
  {
    if tokens != [] {
      var n := |tokens| - 1;
      var before := tokens[..n];
      LastWins(read, before, key);
      if !Names(read, tokens[n], key) && key in FiltersOf(read, before) {
        var i :| 0 <= i < |before| && read(before[i]) == Some(Filter(key, FiltersOf(read, before)[key])) &&
          forall j :: i < j < |before| ==> !Names(read, before[j], key);
        assert tokens[i] == before[i];
      }
    }
  }

  lemma {:induction false} KeptMembers(read: Reader, tokens: seq<string>, key: Key, word: string)
    ensures word in Kept(read, tokens, key) <==> word in tokens && !Names(read, word, key)
  {
    if tokens != [] {
      var n := |tokens| - 1;
      KeptMembers(read, tokens[..n], key, word);
      assert word in tokens <==> word in tokens[..n] || word == tokens[n];
    }
  }

  lemma KeptLast(read: Reader, tokens: seq<string>, last: string, key: Key)
    ensures var kept := Kept(read, tokens, key);
            Kept(read, tokens + [last], key) == if Names(read, last, key) then kept else kept + [last]
  {
    assert (tokens + [last])[..|tokens|] == tokens;
  }

  lemma LastRead(read: Reader, tokens: seq<string>, last: string)
    ensures var filters := FiltersOf(read, tokens);
            FiltersOf(read, tokens + [last]) ==
              if read(last).Some? then filters[read(last).value.key := read(last).value.value] else filters
    ensures var free := Free(read, tokens);
            Free(read, tokens + [last]) == if read(last).Some? then free else free + [last]
  {
    assert (tokens + [last])[..|tokens|] == tokens;
  }

  lemma {:induction false} KeptFree(read: Reader, tokens: seq<string>, key: Key)
    ensures Free(read, Kept(read, tokens, key)) == Free(read, tokens)
  {
    if tokens != [] {
      var n := |tokens| - 1;
      KeptFree(read, tokens[..n], key);
      if !Names(read, tokens[n], key) {
        LastRead(read, Kept(read, tokens[..n], key), tokens[n]);
      }
    }
  }

  lemma SetBeyond(filters: Filters, key: Key, other: Key, value: string)
    ensures filters[key := value] - {key} == filters - {key}
    ensures key != other ==> (filters - {key})[other := value] == filters[other := value] - {key}
  {
  }

  lemma {:induction false} KeptFilters(read: Reader, tokens: seq<string>, key: Key)
    ensures FiltersOf(read, Kept(read, tokens, key)) == FiltersOf(read, tokens) - {key}
  {
    if tokens != [] {
      var before, last := tokens[..|tokens| - 1], tokens[|tokens| - 1];
      KeptFilters(read, before, key);
      LastRead(read, Kept(read, before, key), last);
      if read(last).Some? {
        SetBeyond(FiltersOf(read, before), key, read(last).value.key, read(last).value.value);
      }
    }
  }

  lemma {:induction false} KeptAppend(read: Reader, a: seq<string>, b: seq<string>, key: Key)
    ensures Kept(read, a + b, key) == Kept(read, a, key) + Kept(read, b, key)
  {
    if b == [] {
      assert a + b == a;
    } else {
      var before, last := b[..|b| - 1], b[|b| - 1];
      KeptAppend(read, a, before, key);
      KeptLast(read, a + before, last, key);
      assert b == before + [last];
      Regroup(a, before, [last]);
      Regroup(Kept(read, a, key), Kept(read, before, key), [last]);
    }
  }

  lemma {:induction false} FreeAppend(read: Reader, a: seq<string>, b: seq<string>)
    ensures Free(read, a + b) == Free(read, a) + Free(read, b)
  {
    if b == [] {
      assert a + b == a;
    } else {
      var before, last := b[..|b| - 1], b[|b| - 1];
      FreeAppend(read, a, before);
      LastRead(read, a + before, last);
      assert b == before + [last];
      Regroup(a, before, [last]);
      Regroup(Free(read, a), Free(read, before), [last]);
    }
  }

  lemma MergeThenSet(a: Filters, b: Filters, key: Key, value: string)
    ensures (a + b)[key := value] == a + b[key := value]
  {
  }

  lemma {:induction false} FiltersAppend(read: Reader, a: seq<string>, b: seq<string>)
    ensures FiltersOf(read, a + b) == FiltersOf(read, a) + FiltersOf(read, b)
  {
    if b == [] {
      assert a + b == a;
    } else {
      var before, last := b[..|b| - 1], b[|b| - 1];
      FiltersAppend(read, a, before);
      LastRead(read, a + before, last);
      assert b == before + [last];
      Regroup(a, before, [last]);
      if read(last).Some? {
        MergeThenSet(FiltersOf(read, a), FiltersOf(read, before), read(last).value.key, read(last).value.value);
      }
    }
  }

  lemma {:induction false} KeptBoth(read: Reader, tokens: seq<string>, key: Key, other: Key)
    ensures Kept(read, Kept(read, tokens, key), other) == Kept(read, Kept(read, tokens, other), key)
  {
    if tokens != [] {
      var before, last := tokens[..|tokens| - 1], tokens[|tokens| - 1];
      KeptBoth(read, before, key, other);
      KeptLast(read, Kept(read, before, key), last, other);
      KeptLast(read, Kept(read, before, other), last, key);
    }
  }

  /** Keeping twice keeps no less. */
  lemma {:induction false} KeptAll(read: Reader, tokens: seq<string>, key: Key)
    requires forall word :: word in tokens ==> !Names(read, word, key)
    ensures Kept(read, tokens, key) == tokens
  {
    if tokens != [] {
      var n := |tokens| - 1;
      KeptAll(read, tokens[..n], key);
      assert tokens[n] in tokens;
      assert tokens == tokens[..n] + [tokens[n]];
    }
  }

  lemma {:induction false} FiltersRead(read: Reader, tokens: seq<string>, key: Key)
    requires key in FiltersOf(read, tokens)
    ensures exists word :: word in tokens && read(word) == Some(Filter(key, FiltersOf(read, tokens)[key]))
  {
    LastWins(read, tokens, key);
  }

  // ---- Reading a query -------------------------------------------------------------

  datatype Parsed = Parsed(filters: Filters, text: string)

  function Parse(query: string): Parsed {
    Parsed(FiltersOf(AsFilter, Words(query)), Lower(Join(Free(AsFilter, Words(query)))))
  }

  method ParseQuery(query: string) returns (filters: Filters, text: string)
    ensures Parsed(filters, text) == Parse(query)
  {
    var tokens := Words(query);
    var words: seq<string> := [];
    filters := map[];
    for i := 0 to |tokens|
      invariant filters == FiltersOf(AsFilter, tokens[..i]) && words == Free(AsFilter, tokens[..i])
    {
      assert tokens[..i + 1][..i] == tokens[..i];
      var filter := AsFilter(tokens[i]);
      if filter.Some? {
        filters := filters[filter.value.key := filter.value.value];
      } else {
        words := words + [tokens[i]];
      }
    }
    assert tokens[..|tokens|] == tokens;
    text := Lower(Join(words));
  }

  /** Every filter read has an allowed value. */
  lemma FilterIsAllowed(query: string, key: Key)
    requires key in Parse(query).filters
    ensures Allowed(key, Parse(query).filters[key])
  {
    FiltersRead(AsFilter, Words(query), key);
  }

  // ---- Changing a query ------------------------------------------------------------

  predicate Clears(value: Option<string>) {
    value.None? || value.value == ""
  }

  predicate Sets(key: Key, value: Option<string>) {
    value.Some? && Allowed(key, Lower(value.value))
  }

  /** Sets one key's token, or removes it when there is no value or an empty one. */
  function WithFilter(query: string, key: Key, value: Option<string>): string {
    var kept := Kept(AsFilter, Words(query), key);
    Join(if Clears(value) then kept else kept + [Token(key, value.value)])
  }

  /** The words of a changed query: those kept, in order and as typed, then the new token's. */
  lemma WordsAfter(query: string, key: Key, value: Option<string>)
    ensures Words(WithFilter(query, key, value)) ==
              Kept(AsFilter, Words(query), key) + if Clears(value) then [] else Words(Token(key, value.value))
  {
    var kept := Kept(AsFilter, Words(query), key);
    WordsAreWords(query);
    forall word | word in kept ensures Word(word) {
      KeptMembers(AsFilter, Words(query), key, word);
    }
    if Clears(value) {
      WordsOfJoin(kept);
    } else {
      WordsOfJoinAnd(kept, Token(key, value.value));
    }
  }

  /** Removing erases exactly that key. */
  lemma RemoveErases(query: string, key: Key, value: Option<string>)
    requires Clears(value)
    ensures Parse(WithFilter(query, key, value)) == Parsed(Parse(query).filters - {key}, Parse(query).text)
  {
    WordsAfter(query, key, value);
    KeptFree(AsFilter, Words(query), key);
    KeptFilters(AsFilter, Words(query), key);
    assert Words(WithFilter(query, key, value)) == Kept(AsFilter, Words(query), key);
  }

  lemma SetReads(read: Reader, tokens: seq<string>, key: Key, token: string, value: string)
    requires read(token) == Some(Filter(key, value))
    ensures FiltersOf(read, Kept(read, tokens, key) + [token]) == FiltersOf(read, tokens)[key := value]
    ensures Free(read, Kept(read, tokens, key) + [token]) == Free(read, tokens)
  {
    KeptFree(read, tokens, key);
    KeptFilters(read, tokens, key);
    LastRead(read, Kept(read, tokens, key), token);
    assert (FiltersOf(read, tokens) - {key})[key := value] == FiltersOf(read, tokens)[key := value];
  }

  lemma SetWords(query: string, key: Key, value: string)
    requires Allowed(key, Lower(value))
    ensures Words(WithFilter(query, key, Some(value))) == Kept(AsFilter, Words(query), key) + [Token(key, value)]
  {
    TokenIsFilter(key, value);
    AllowedIsWord(key, Lower(value));
    WordsAfter(query, key, Some(value));
    WordsOfWord(Token(key, value));
  }

  /** Setting an allowed value changes exactly that key. */
  lemma SetAllowed(query: string, key: Key, value: string)
    requires Allowed(key, Lower(value))
    ensures Parse(WithFilter(query, key, Some(value))) == Parsed(Parse(query).filters[key := Lower(value)], Parse(query).text)
  {
    TokenIsFilter(key, value);
    SetReads(AsFilter, Words(query), key, Token(key, value), Lower(value));
    SetWords(query, key, value);
  }

  /** It does so exactly when the value is an allowed one. */
  lemma SetChanges(query: string, key: Key, value: string)
    requires value != ""
    ensures Parse(WithFilter(query, key, Some(value))) == Parsed(Parse(query).filters[key := Lower(value)], Parse(query).text)
       <==> Allowed(key, Lower(value))
  {
    if Allowed(key, Lower(value)) {
      SetAllowed(query, key, value);
    } else if key in Parse(WithFilter(query, key, Some(value))).filters {
      FilterIsAllowed(WithFilter(query, key, Some(value)), key);
    }
  }

  /** Setting a key to the value it has changes nothing a reader of the query can see. */
  lemma SetWhatIsThere(query: string, key: Key)
    ensures var filters := Parse(query).filters;
            Parse(WithFilter(query, key, if key in filters then Some(filters[key]) else None)) == Parse(query)
  {
    var filters := Parse(query).filters;
    if key in filters {
      FilterIsAllowed(query, key);
      AllowedIsLower(key, filters[key]);
      SetAllowed(query, key, filters[key]);
    } else {
      RemoveErases(query, key, None);
      assert filters - {key} == filters;
    }
  }

  /** What a change appends to the query, as words. */
  function Added(key: Key, value: Option<string>): seq<string> {
    if Clears(value) then [] else Words(Token(key, value.value))
  }

  /** The tokens of `key` are gone from a changed query, but for words of an odd value. */
  lemma KeptTwice(query: string, key: Key, value: Option<string>)
    ensures Kept(AsFilter, Words(WithFilter(query, key, value)), key) ==
              Kept(AsFilter, Words(query), key) + Kept(AsFilter, Added(key, value), key)
  {
    var kept := Kept(AsFilter, Words(query), key);
    WordsAfter(query, key, value);
    KeptAppend(AsFilter, kept, Added(key, value), key);
    forall word | word in kept ensures !Names(AsFilter, word, key) {
      KeptMembers(AsFilter, Words(query), key, word);
    }
    KeptAll(AsFilter, kept, key);
  }

  /** Whatever a change leaves behind shows in the words of the next one. */
  lemma SecondWords(query: string, key: Key, first: Option<string>, second: Option<string>)
    ensures Words(WithFilter(WithFilter(query, key, first), key, second)) ==
              Kept(AsFilter, Words(query), key) + Kept(AsFilter, Added(key, first), key) + Added(key, second)
  {
    KeptTwice(query, key, first);
    WordsAfter(WithFilter(query, key, first), key, second);
  }

  lemma NothingKept(tokens: seq<string>, key: Key)
    ensures Kept(AsFilter, tokens, key) == [] <==> forall word :: word in tokens ==> Names(AsFilter, word, key)
  {
    var kept := Kept(AsFilter, tokens, key);
    if kept == [] {
      forall word | word in tokens ensures Names(AsFilter, word, key) {
        KeptMembers(AsFilter, tokens, key, word);
      }
    } else {
      KeptMembers(AsFilter, tokens, key, kept[0]);
    }
  }

  /** A second change of a key overwrites the first, string for string, exactly when all the first added was tokens of that key. */
  lemma SetOverwrites(query: string, key: Key, first: Option<string>, second: Option<string>)
    ensures WithFilter(WithFilter(query, key, first), key, second) == WithFilter(query, key, second) <==>
              forall word :: word in Added(key, first) ==> Names(AsFilter, word, key)
  {
    var left := Kept(AsFilter, Added(key, first), key);
    NothingKept(Added(key, first), key);
    if left == [] {
      KeptTwice(query, key, first);
      assert Kept(AsFilter, Words(query), key) + left == Kept(AsFilter, Words(query), key);
    } else {
      SecondWords(query, key, first, second);
      WordsAfter(query, key, second);
      assert |Words(WithFilter(WithFilter(query, key, first), key, second))| == |Words(WithFilter(query, key, second))| + |left|;
    }
  }

  /** In particular after an allowed value. */
  lemma AllowedIsOverwritten(query: string, key: Key, first: string, second: Option<string>)
    requires Allowed(key, Lower(first))
    ensures WithFilter(WithFilter(query, key, Some(first)), key, second) == WithFilter(query, key, second)
  {
    TokenIsFilter(key, first);
    WordsOfWord(Token(key, first));
    SetOverwrites(query, key, Some(first), second);
  }

  /** What a change to a value that is not allowed adds. */
  lemma AddedFree(key: Key, value: string)
    requires Word(value) && !Allowed(key, Lower(value))
    ensures Added(key, Some(value)) == [Token(key, value)] && AsFilter(Token(key, value)) == None
  {
    TokenIsFree(key, value);
    WordsOfWord(Token(key, value));
  }

  /** A word that is not an allowed value is never overwritten: it stays in the query as free text. */
  lemma ValueStays(query: string, key: Key, first: string, second: Option<string>)
    requires Word(first) && !Allowed(key, Lower(first))
    ensures WithFilter(WithFilter(query, key, Some(first)), key, second) != WithFilter(query, key, second)
  {
    AddedFree(key, first);
    assert Token(key, first) in Added(key, Some(first)) && !Names(AsFilter, Token(key, first), key);
    SetOverwrites(query, key, Some(first), second);
  }

  function Change(before: Parsed, key: Key, value: Option<string>): Parsed {
    before.(filters := if Clears(value) then before.filters - {key} else before.filters[key := Lower(value.value)])
  }

  /** Setting and removing, together. */
  lemma Changes(query: string, key: Key, value: Option<string>)
    requires Clears(value) || Sets(key, value)
    ensures Parse(WithFilter(query, key, value)) == Change(Parse(query), key, value)
  {
    if Clears(value) {
      RemoveErases(query, key, value);
    } else {
      SetAllowed(query, key, value.value);
    }
  }

  lemma ChangesCommute(before: Parsed, key: Key, value: Option<string>, other: Key, next: Option<string>)
    requires key != other
    ensures Change(Change(before, key, value), other, next) == Change(Change(before, other, next), key, value)
  {
    assert Change(Change(before, key, value), other, next).filters ==
           Change(Change(before, other, next), key, value).filters;
  }

  /** So changes of different keys to allowed values, or removals, commute for a reader of the query. */
  lemma AllowedCommute(query: string, key: Key, value: Option<string>, other: Key, next: Option<string>)
    requires key != other
    requires (Clears(value) || Sets(key, value)) && (Clears(next) || Sets(other, next))
    ensures Parse(WithFilter(WithFilter(query, key, value), other, next)) ==
            Parse(WithFilter(WithFilter(query, other, next), key, value))
  {
    Changes(query, key, value);
    Changes(query, other, next);
    Changes(WithFilter(query, key, value), other, next);
    Changes(WithFilter(query, other, next), key, value);
    ChangesCommute(Parse(query), key, value, other, next);
  }

  // ---- When changes of different keys commute, whatever their values -----------------

  function LowerAll(words: seq<string>): (r: seq<string>)
    ensures |r| == |words| && forall i :: 0 <= i < |words| ==> r[i] == Lower(words[i])
  {
    seq(|words|, i requires 0 <= i < |words| => Lower(words[i]))
  }

  lemma LowerAppend(a: string, b: string)
    ensures Lower(a + b) == Lower(a) + Lower(b)
  {
  }

  lemma {:induction false} LowerJoin(words: seq<string>)
    ensures Lower(Join(words)) == Join(LowerAll(words))
  {
    if |words| == 1 {
      assert LowerAll(words) == [Lower(words[0])];
    } else if words != [] {
      LowerJoin(words[1..]);
      LowerAppend(words[0] + " ", Join(words[1..]));
      LowerAppend(words[0], " ");
      assert Lower(" ") == " ";
      assert LowerAll(words)[1..] == LowerAll(words[1..]);
    }
  }

  lemma LowerWords(words: seq<string>)
    requires AllWords(words)
    ensures AllWords(LowerAll(words))
  {
    forall word | word in LowerAll(words) ensures Word(word) {
      var i :| 0 <= i < |words| && LowerAll(words)[i] == word;
      assert words[i] in words;
      SpaceKeepsCase(words[i]);
    }
  }

  /** The free text tells its words, up to case. */
  lemma SameText(a: seq<string>, b: seq<string>)
    requires AllWords(a) && AllWords(b)
    ensures Lower(Join(a)) == Lower(Join(b)) <==> LowerAll(a) == LowerAll(b)
  {
    LowerJoin(a);
    LowerJoin(b);
    LowerWords(a);
    LowerWords(b);
    WordsOfJoin(LowerAll(a));
    WordsOfJoin(LowerAll(b));
  }

  lemma {:induction false} FreeMembers(read: Reader, tokens: seq<string>, word: string)
    requires word in Free(read, tokens)
    ensures word in tokens
  {
    var n := |tokens| - 1;
    if word in Free(read, tokens[..n]) {
      FreeMembers(read, tokens[..n], word);
    }
  }

  /** The words of a query changed in two keys: those of neither key, what the first added less the second key's, what the second added. */
  lemma WordsAfterBoth(query: string, key: Key, value: Option<string>, other: Key, next: Option<string>)
    ensures Words(WithFilter(WithFilter(query, key, value), other, next)) ==
              Kept(AsFilter, Kept(AsFilter, Words(query), key), other) +
              (Kept(AsFilter, Added(key, value), other) + Added(other, next))
  {
    var kept := Kept(AsFilter, Words(query), key);
    WordsAfter(query, key, value);
    WordsAfter(WithFilter(query, key, value), other, next);
    KeptAppend(AsFilter, kept, Added(key, value), other);
    Regroup(Kept(AsFilter, kept, other), Kept(AsFilter, Added(key, value), other), Added(other, next));
  }

  /** What a query changed in two keys parses to. */
  lemma ParsedAfterBoth(query: string, key: Key, value: Option<string>, other: Key, next: Option<string>)
    ensures var rest := Kept(AsFilter, Kept(AsFilter, Words(query), key), other);
            var after := Parse(WithFilter(WithFilter(query, key, value), other, next));
            after.filters == FiltersOf(AsFilter, rest) +
              ((FiltersOf(AsFilter, Added(key, value)) - {other}) + FiltersOf(AsFilter, Added(other, next))) &&
            after.text == Lower(Join(Free(AsFilter, rest) +
              (Free(AsFilter, Added(key, value)) + Free(AsFilter, Added(other, next)))))
  {
    var rest := Kept(AsFilter, Kept(AsFilter, Words(query), key), other);
    var left := Kept(AsFilter, Added(key, value), other);
    WordsAfterBoth(query, key, value, other, next);
    FiltersAppend(AsFilter, rest, left + Added(other, next));
    FiltersAppend(AsFilter, left, Added(other, next));
    FreeAppend(AsFilter, rest, left + Added(other, next));
    FreeAppend(AsFilter, left, Added(other, next));
    KeptFree(AsFilter, Added(key, value), other);
    KeptFilters(AsFilter, Added(key, value), other);
  }

  /** What two changes add agrees: no key with two values, neither key set by the other change alone, and free words that commute. */
  predicate Agree(key: Key, x: seq<string>, other: Key, y: seq<string>) {
    var fx, fy := FiltersOf(AsFilter, x), FiltersOf(AsFilter, y);
    (forall k :: k in fx && k in fy ==> fx[k] == fy[k]) && (key in fy ==> key in fx) && (other in fx ==> other in fy) &&
    LowerAll(Free(AsFilter, x) + Free(AsFilter, y)) == LowerAll(Free(AsFilter, y) + Free(AsFilter, x))
  }

  lemma FiltersDisagree(rest: Filters, key: Key, fx: Filters, other: Key, fy: Filters)
    requires key != other && key !in rest && other !in rest
    requires (exists k :: k in fx && k in fy && fx[k] != fy[k]) || (key in fy && key !in fx) || (other in fx && other !in fy)
    ensures rest + ((fx - {other}) + fy) != rest + ((fy - {key}) + fx)
  {
    var a, b := rest + ((fx - {other}) + fy), rest + ((fy - {key}) + fx);
    if k :| k in fx && k in fy && fx[k] != fy[k] {
      assert a[k] == fy[k] && b[k] == fx[k];
    } else if key in fy && key !in fx {
      assert key in a && key !in b;
    } else {
      assert other in b && other !in a;
    }
  }

  lemma FiltersAgree(rest: Filters, key: Key, fx: Filters, other: Key, fy: Filters)
    requires key != other && key !in rest && other !in rest
    ensures rest + ((fx - {other}) + fy) == rest + ((fy - {key}) + fx) <==>
            (forall k :: k in fx && k in fy ==> fx[k] == fy[k]) && (key in fy ==> key in fx) && (other in fx ==> other in fy)
  {
    if (forall k :: k in fx && k in fy ==> fx[k] == fy[k]) && (key in fy ==> key in fx) && (other in fx ==> other in fy) {
      assert (fx - {other}) + fy == (fy - {key}) + fx;
    } else {
      FiltersDisagree(rest, key, fx, other, fy);
    }
  }

  lemma LowerAllAppend(a: seq<string>, b: seq<string>)
    ensures LowerAll(a + b) == LowerAll(a) + LowerAll(b)
  {
  }

  lemma SameAfter(start: seq<string>, a: seq<string>, b: seq<string>)
    ensures start + a == start + b <==> a == b
  {
    assert (start + a)[|start|..] == a && (start + b)[|start|..] == b;
  }

  lemma TextsAgree(rest: seq<string>, x: seq<string>, y: seq<string>)
    requires AllWords(rest) && AllWords(x) && AllWords(y)
    ensures Lower(Join(rest + (x + y))) == Lower(Join(rest + (y + x))) <==> LowerAll(x + y) == LowerAll(y + x)
  {
    SameText(rest + (x + y), rest + (y + x));
    LowerAllAppend(rest, x + y);
    LowerAllAppend(rest, y + x);
    SameAfter(LowerAll(rest), LowerAll(x + y), LowerAll(y + x));
  }

  lemma FreeAreWords(tokens: seq<string>)
    requires AllWords(tokens)
    ensures AllWords(Free(AsFilter, tokens))
  {
    forall word | word in Free(AsFilter, tokens) ensures Word(word) {
      FreeMembers(AsFilter, tokens, word);
    }
  }

  lemma KeptAreWords(tokens: seq<string>, key: Key)
    requires AllWords(tokens)
    ensures AllWords(Kept(AsFilter, tokens, key))
  {
    forall word | word in Kept(AsFilter, tokens, key) ensures Word(word) {
      KeptMembers(AsFilter, tokens, key, word);
    }
  }

  lemma AddedAreWords(key: Key, value: Option<string>)
    ensures AllWords(Added(key, value))
  {
    if !Clears(value) {
      WordsAreWords(Token(key, value.value));
    }
  }

  /** Changes of different keys commute for a reader of the query exactly when what they add agrees; the query does not matter. */
  lemma SetsCommute(query: string, key: Key, value: Option<string>, other: Key, next: Option<string>)
    requires key != other
    ensures Parse(WithFilter(WithFilter(query, key, value), other, next)) ==
            Parse(WithFilter(WithFilter(query, other, next), key, value)) <==>
              Agree(key, Added(key, value), other, Added(other, next))
  {
    var x, y := Added(key, value), Added(other, next);
    var rest := Kept(AsFilter, Kept(AsFilter, Words(query), key), other);
    ParsedAfterBoth(query, key, value, other, next);
    ParsedAfterBoth(query, other, next, key, value);
    KeptBoth(AsFilter, Words(query), key, other);
    KeptFilters(AsFilter, Words(query), key);
    KeptFilters(AsFilter, Kept(AsFilter, Words(query), key), other);
    FiltersAgree(FiltersOf(AsFilter, rest), key, FiltersOf(AsFilter, x), other, FiltersOf(AsFilter, y));
    WordsAreWords(query);
    KeptAreWords(Words(query), key);
    KeptAreWords(Kept(AsFilter, Words(query), key), other);
    AddedAreWords(key, value);
    AddedAreWords(other, next);
    FreeAreWords(rest);
    FreeAreWords(x);
    FreeAreWords(y);
    TextsAgree(Free(AsFilter, rest), Free(AsFilter, x), Free(AsFilter, y));
  }

  lemma FreeOne(read: Reader, x: string, tokens: seq<string>)
    requires tokens == [x] && read(x) == None
    ensures Free(read, tokens) == tokens
  {
    assert tokens[..0] == [];
  }

  lemma FreeDisagree(key: Key, x: string, other: Key, y: string)
    requires AsFilter(x) == None && AsFilter(y) == None && Lower(x) != Lower(y)
    ensures !Agree(key, [x], other, [y])
  {
    FreeOne(AsFilter, x, [x]);
    FreeOne(AsFilter, y, [y]);
    assert LowerAll([x] + [y])[0] == Lower(x) && LowerAll([y] + [x])[0] == Lower(y);
  }

  lemma TokensDiffer(key: Key, value: string, other: Key, next: string)
    requires key != other
    ensures Lower(Token(key, value)) != Lower(Token(other, next))
  {
    var a, b := Token(key, value), Token(other, next);
    assert a[0] == KeyText(key)[0] && b[0] == KeyText(other)[0];
    assert a[1] == KeyText(key)[1] && b[1] == KeyText(other)[1];
    assert Lower(a)[0] == a[0] && Lower(b)[0] == b[0] && Lower(a)[1] == a[1] && Lower(b)[1] == b[1];
  }

  /** Two words that are not allowed values show in the free text, in the order they were set. */
  lemma OrderShows(query: string, key: Key, value: string, other: Key, next: string)
    requires key != other && Word(value) && Word(next) && !Allowed(key, Lower(value)) && !Allowed(other, Lower(next))
    ensures Parse(WithFilter(WithFilter(query, key, Some(value)), other, Some(next))) !=
            Parse(WithFilter(WithFilter(query, other, Some(next)), key, Some(value)))
  {
    AddedFree(key, value);
    AddedFree(other, next);
    TokensDiffer(key, value, other, next);
    FreeDisagree(key, Token(key, value), other, Token(other, next));
    SetsCommute(query, key, Some(value), other, Some(next));
  }

  /** `x` is such a word for the keys with a fixed list of values. */
  lemma OddValues(query: string, second: Option<string>)
    ensures WithFilter(WithFilter(query, Status, Some("x")), Status, second) != WithFilter(query, Status, second)
    ensures Parse(WithFilter(WithFilter(query, Status, Some("x")), Os, Some("x"))) !=
            Parse(WithFilter(WithFilter(query, Os, Some("x")), Status, Some("x")))
  {
    assert Lower("x") == "x";
    ValueStays(query, Status, "x", second);
    OrderShows(query, Status, "x", Os, "x");
  }
}
