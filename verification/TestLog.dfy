/**
The printer of `go test -json` events: it holds a running test's output back until
the test or its package ends, prints what failed and drops what passed.
*/
module TestLog {
  import opened Wrappers

  datatype Action = Fail | Pass | Skip | Otherwise

  datatype Key = Key(package: Option<string>, test: string)

  /** An event without a test, or with an empty one, is about its package. */
  datatype Event = PackageEvent(package: Option<string>, action: Action, output: string)
                 | TestEvent(key: Key, action: Action, output: string)

  /** A line of input: its text, and the event it holds if it is JSON. */
  datatype Line = Line(text: string, event: Option<Event>)

  datatype Owner = Nobody | Test(key: Key)

  /** A write to the output, marked with the input line it came from and the test it belongs to. */
  datatype Piece = Piece(line: nat, owner: Owner, text: string)

  datatype Entry = Entry(key: Key, pieces: seq<Piece>)

  // ---- What should become of each line's output ---------------------------------------

  datatype Fate = Held | Printed | Dropped

  function OwnerOf(line: Line): Owner {
    if line.event.Some? && line.event.value.TestEvent? then Test(line.event.value.key) else Nobody
  }

  function PieceOf(input: seq<Line>, i: nat): Piece
    requires i < |input|
  {
    Piece(i, OwnerOf(input[i]), if input[i].event.Some? then input[i].event.value.output else input[i].text)
  }

  /** What a line decides about the output a test has written so far, its own line included. */
  function Decides(line: Line, key: Key): Fate {
    if line.event.None? then Held
    else
      match line.event.value
      case PackageEvent(package, action, _) => if package == key.package && action == Fail then Printed else Held
      case TestEvent(k, action, _) =>
        if k != key then Held
        else
          match action
          case Fail => Printed
          case Pass => Dropped
          case Skip => Dropped
          case Otherwise => Held
  }

  /** The fate of what `key` writes on line `i`, once lines before `n` are read: the first decision from `i` on. */
  function FateOf(input: seq<Line>, i: nat, n: nat, key: Key): Fate
    requires n <= |input|
    decreases n - i
  {
    if i >= n then Held
    else if Decides(input[i], key) != Held then Decides(input[i], key)
    else FateOf(input, i + 1, n, key)
  }

  /** The line reports the failure of the test or of its package. */
  predicate Fails(line: Line, key: Key) {
    line.event.Some? && line.event.value.action == Fail &&
    match line.event.value
    case PackageEvent(package, _, _) => package == key.package
    case TestEvent(k, _, _) => k == key
  }

  /** The line reports that the test passed or was skipped. */
  predicate Finishes(line: Line, key: Key) {
    line.event.Some? && line.event.value.TestEvent? && line.event.value.key == key && line.event.value.action in {Pass, Skip}
  }

  /** Lines `i` to `k` report neither for the test. */
  ghost predicate Runs(input: seq<Line>, i: nat, k: nat, key: Key) {
    forall j :: i <= j < k && j < |input| ==> !Fails(input[j], key) && !Finishes(input[j], key)
  }

  /** Line `k` is the first from `i` on to report a failure for the test, before it finishes. */
  ghost predicate FailsFirst(input: seq<Line>, i: nat, k: nat, key: Key) {
    i <= k < |input| && Runs(input, i, k, key) && Fails(input[k], key)
  }

  ghost predicate FinishesFirst(input: seq<Line>, i: nat, k: nat, key: Key) {
    i <= k < |input| && Runs(input, i, k, key) && Finishes(input[k], key)
  }

  lemma DecidesByLine(line: Line, key: Key)
    ensures (Decides(line, key) == Printed <==> Fails(line, key)) && (Decides(line, key) == Dropped <==> Finishes(line, key))
  {
  }

  lemma FirstReport(input: seq<Line>, i: nat, k: nat, key: Key)
    requires i < |input| && (Fails(input[i], key) || Finishes(input[i], key))
    ensures FailsFirst(input, i, k, key) ==> k == i
    ensures FinishesFirst(input, i, k, key) ==> k == i
  {
  }

  lemma NoReport(input: seq<Line>, i: nat, k: nat, key: Key)
    requires i < |input| && !Fails(input[i], key) && !Finishes(input[i], key)
    ensures FailsFirst(input, i, k, key) <==> FailsFirst(input, i + 1, k, key)
    ensures FinishesFirst(input, i, k, key) <==> FinishesFirst(input, i + 1, k, key)
  {
  }

  /** Line by line: output is printed when a failure is reported first, dropped when the test finishes first, held while neither is. */
  lemma {:induction false} FateByLine(input: seq<Line>, i: nat, n: nat, key: Key)
    requires i <= n <= |input|
    ensures FateOf(input, i, n, key) == Printed <==> exists k: nat :: k < n && FailsFirst(input, i, k, key)
    ensures FateOf(input, i, n, key) == Dropped <==> exists k: nat :: k < n && FinishesFirst(input, i, k, key)
    ensures FateOf(input, i, n, key) == Held <==> Runs(input, i, n, key)
    decreases n - i
  {
    if i < n {
      DecidesByLine(input[i], key);
      if Decides(input[i], key) != Held {
        forall k: nat ensures FailsFirst(input, i, k, key) ==> k == i {
          FirstReport(input, i, k, key);
        }
        forall k: nat ensures FinishesFirst(input, i, k, key) ==> k == i {
          FirstReport(input, i, k, key);
        }
        assert FailsFirst(input, i, i, key) <==> Fails(input[i], key);
        assert FinishesFirst(input, i, i, key) <==> Finishes(input[i], key);
      } else {
        FateByLine(input, i + 1, n, key);
        if FateOf(input, i, n, key) == Printed {
          var k: nat :| k < n && FailsFirst(input, i + 1, k, key);
          NoReport(input, i, k, key);
        } else if FateOf(input, i, n, key) == Dropped {
          var k: nat :| k < n && FinishesFirst(input, i + 1, k, key);
          NoReport(input, i, k, key);
        }
        forall k: nat ensures FailsFirst(input, i, k, key) <==> FailsFirst(input, i + 1, k, key) {
          NoReport(input, i, k, key);
        }
        forall k: nat ensures FinishesFirst(input, i, k, key) <==> FinishesFirst(input, i + 1, k, key) {
          NoReport(input, i, k, key);
        }
      }
    }
  }

  /** What `key` writes on the lines before `m` that has this fate, in order. */
  function WithFate(input: seq<Line>, m: nat, n: nat, key: Key, fate: Fate): seq<Piece>
    requires m <= n <= |input|
  {
    if m == 0 then []
    else
      var before := WithFate(input, m - 1, n, key, fate);
      if OwnerOf(input[m - 1]) == Test(key) && FateOf(input, m - 1, n, key) == fate
      then before + [PieceOf(input, m - 1)] else before
  }

  lemma {:induction false} FateStep(input: seq<Line>, i: nat, n: nat, key: Key)
    requires i <= n < |input|
    ensures FateOf(input, i, n + 1, key) ==
              if FateOf(input, i, n, key) == Held then Decides(input[n], key) else FateOf(input, i, n, key)
    decreases n - i
  {
    if i < n {
      FateStep(input, i + 1, n, key);
    }
  }

  /** Once something is decided, everything before it is. */
  lemma {:induction false} HeldOnwards(input: seq<Line>, i: nat, j: nat, n: nat, key: Key)
    requires i <= j <= n <= |input| && FateOf(input, i, n, key) == Held
    ensures FateOf(input, j, n, key) == Held
    decreases j - i
  {
    if i < j {
      HeldOnwards(input, i + 1, j, n, key);
    }
  }

  lemma {:induction false} NoneHeldBefore(input: seq<Line>, m: nat, i: nat, n: nat, key: Key)
    requires m <= i < n <= |input| && FateOf(input, i, n, key) != Held
    ensures WithFate(input, m, n, key, Held) == []
  {
    if m > 0 {
      NoneHeldBefore(input, m - 1, i, n, key);
      if FateOf(input, m - 1, n, key) == Held {
        HeldOnwards(input, m - 1, i, n, key);
      }
    }
  }

  /** A line that decides moves all that was held to its fate, after what had it already; another changes nothing. */
  lemma {:induction false} FatesStep(input: seq<Line>, m: nat, n: nat, key: Key, fate: Fate)
    requires m <= n < |input| && fate != Held
    ensures WithFate(input, m, n + 1, key, fate) ==
              WithFate(input, m, n, key, fate) +
              if Decides(input[n], key) == fate then WithFate(input, m, n, key, Held) else []
  {
    if m > 0 {
      var i := m - 1;
      FatesStep(input, i, n, key, fate);
      FateStep(input, i, n, key);
      if FateOf(input, i, n, key) != Held {
        NoneHeldBefore(input, i, i, n, key);
      }
    }
  }

  lemma {:induction false} HeldStep(input: seq<Line>, m: nat, n: nat, key: Key)
    requires m <= n < |input|
    ensures WithFate(input, m, n + 1, key, Held) ==
              if Decides(input[n], key) == Held then WithFate(input, m, n, key, Held) else []
  {
    if m > 0 {
      HeldStep(input, m - 1, n, key);
      FateStep(input, m - 1, n, key);
    }
  }

  /** How many of the lines before `m` are `key`'s. */
  function LinesOf(input: seq<Line>, m: nat, key: Key): nat
    requires m <= |input|
  {
    if m == 0 then 0 else LinesOf(input, m - 1, key) + if OwnerOf(input[m - 1]) == Test(key) then 1 else 0
  }

  predicate InOrder(pieces: seq<Piece>, m: nat) {
    (forall i :: 0 <= i < |pieces| ==> pieces[i].line < m) &&
    (forall i, j :: 0 <= i < j < |pieces| ==> pieces[i].line < pieces[j].line)
  }

  lemma {:induction false} FateInOrder(input: seq<Line>, m: nat, n: nat, key: Key, fate: Fate)
    requires m <= n <= |input|
    ensures InOrder(WithFate(input, m, n, key, fate), m)
  {
    if m > 0 {
      FateInOrder(input, m - 1, n, key, fate);
    }
  }

  /** A test's lines are split among the three fates, each line once. */
  lemma {:induction false} Partition(input: seq<Line>, m: nat, n: nat, key: Key)
    requires m <= n <= |input|
    ensures |WithFate(input, m, n, key, Held)| + |WithFate(input, m, n, key, Printed)| +
            |WithFate(input, m, n, key, Dropped)| == LinesOf(input, m, key)
  {
    if m > 0 {
      Partition(input, m - 1, n, key);
    }
  }

  lemma {:induction false} PartitionMember(input: seq<Line>, m: nat, n: nat, key: Key, fate: Fate, i: nat)
    requires i < m <= n <= |input| && OwnerOf(input[i]) == Test(key)
    ensures PieceOf(input, i) in WithFate(input, m, n, key, fate) <==> FateOf(input, i, n, key) == fate
  {
    if i < m - 1 {
      PartitionMember(input, m - 1, n, key, fate, i);
    } else {
      FateInOrder(input, m - 1, n, key, fate);
    }
  }

  /** What `key` itself writes on a line. */
  function Own(input: seq<Line>, i: nat, key: Key): seq<Piece>
    requires i < |input|
  {
    if OwnerOf(input[i]) == Test(key) then [PieceOf(input, i)] else []
  }

  /** Reading one more line. */
  lemma OneMore(input: seq<Line>, n: nat, key: Key, fate: Fate)
    requires n < |input| && fate != Held
    ensures var held := WithFate(input, n, n, key, Held) + Own(input, n, key);
            WithFate(input, n + 1, n + 1, key, Held) == (if Decides(input[n], key) == Held then held else []) &&
            WithFate(input, n + 1, n + 1, key, fate) ==
              WithFate(input, n, n, key, fate) + if Decides(input[n], key) == fate then held else []
  {
    HeldStep(input, n, n, key);
    FatesStep(input, n, n, key, fate);
    FateStep(input, n, n, key);
  }

  // ---- The whole output, line by line ---------------------------------------------------

  function AddKey(keys: seq<Key>, key: Key, held: bool): seq<Key> {
    if held && key !in keys then keys + [key] else keys
  }

  /** The tests with output held from lines before `m`, in the order of their first such line. */
  function Pending(input: seq<Line>, m: nat, n: nat): seq<Key>
    requires m <= n <= |input|
  {
    if m == 0 then []
    else
      var before, owner := Pending(input, m - 1, n), OwnerOf(input[m - 1]);
      if owner.Test? then AddKey(before, owner.key, FateOf(input, m - 1, n, owner.key) == Held) else before
  }

  function OfPackage(keys: seq<Key>, package: Option<string>): seq<Key> {
    if keys == [] then []
    else if keys[0].package == package then [keys[0]] + OfPackage(keys[1..], package)
    else OfPackage(keys[1..], package)
  }

  /** The held output of these tests, test by test. */
  function HeldOf(input: seq<Line>, n: nat, keys: seq<Key>): seq<Piece>
    requires n <= |input|
  {
    if keys == [] then [] else WithFate(input, n, n, keys[0], Held) + HeldOf(input, n, keys[1..])
  }

  /** What a line puts out: its package's held tests one after the other, its test's held lines in one block, its own text. */
  function Released(input: seq<Line>, i: nat): seq<Piece>
    requires i < |input|
  {
    if input[i].event.None? then [PieceOf(input, i)]
    else
      match input[i].event.value
      case PackageEvent(package, action, _) =>
        (if action == Fail then HeldOf(input, i, OfPackage(Pending(input, i, i), package)) else []) + [PieceOf(input, i)]
      case TestEvent(key, action, _) =>
        if action == Fail then WithFate(input, i, i, key, Held) + [PieceOf(input, i)] else []
  }

  function Output(input: seq<Line>, n: nat): seq<Piece>
    requires n <= |input|
  {
    if n == 0 then [] else Output(input, n - 1) + Released(input, n - 1)
  }

  /** The tests a line says nothing about. */
  /** The tests with held output are the pending ones. */
  lemma {:induction false} PendingHolds(input: seq<Line>, m: nat, n: nat, key: Key)
    requires m <= n <= |input|
    ensures key in Pending(input, m, n) <==> WithFate(input, m, n, key, Held) != []
    ensures WithFate(input, m, n, key, Held) != [] ==> WithFate(input, m, n, key, Held)[0].line < m
  {
    if m > 0 {
      PendingHolds(input, m - 1, n, key);
    }
  }

  /** They come in the order of the first line each holds. */
  lemma {:induction false} PendingInOrder(input: seq<Line>, m: nat, n: nat, x: nat, y: nat)
    requires m <= n <= |input| && x < y < |Pending(input, m, n)|
    ensures var a, b := WithFate(input, m, n, Pending(input, m, n)[x], Held), WithFate(input, m, n, Pending(input, m, n)[y], Held);
            a != [] && b != [] && a[0].line < b[0].line
  {
    var keys := Pending(input, m, n);
    var before := Pending(input, m - 1, n);
    PendingHolds(input, m, n, keys[x]);
    PendingHolds(input, m, n, keys[y]);
    PendingHolds(input, m - 1, n, keys[x]);
    PendingHolds(input, m - 1, n, keys[y]);
    if y < |before| {
      PendingInOrder(input, m - 1, n, x, y);
    }
  }

  /** Whatever a line releases, nothing comes after it and its own output comes last. */
  lemma OwnOutputLast(input: seq<Line>, i: nat)
    requires i < |input| && (OwnerOf(input[i]) == Nobody || input[i].event.value.action == Fail)
    ensures var r := Released(input, i); r != [] && r[|r| - 1] == PieceOf(input, i)
  {
  }

  function Undecided(keys: seq<Key>, line: Line): seq<Key> {
    if keys == [] then []
    else if Decides(line, keys[0]) == Held then [keys[0]] + Undecided(keys[1..], line)
    else Undecided(keys[1..], line)
  }

  lemma {:induction false} UndecidedOne(keys: seq<Key>, key: Key, line: Line)
    ensures var before := Undecided(keys, line);
            Undecided(keys + [key], line) == if Decides(line, key) == Held then before + [key] else before
  {
    if keys == [] {
      assert (keys + [key])[1..] == [];
    } else {
      UndecidedOne(keys[1..], key, line);
      assert (keys + [key])[1..] == keys[1..] + [key];
    }
  }

  lemma {:induction false} UndecidedMember(keys: seq<Key>, line: Line, key: Key)
    ensures key in Undecided(keys, line) <==> key in keys && Decides(line, key) == Held
  {
    if keys != [] {
      UndecidedMember(keys[1..], line, key);
      assert key in keys <==> key in keys[1..] || key == keys[0];
    }
  }

  lemma UndecidedAdd(keys: seq<Key>, key: Key, held: bool, line: Line)
    ensures Undecided(AddKey(keys, key, held), line) ==
            AddKey(Undecided(keys, line), key, held && Decides(line, key) == Held)
  {
    UndecidedMember(keys, line, key);
    UndecidedOne(keys, key, line);
  }

  /** Reading one more line lets go of the tests it decides about, and of no other. */
  lemma {:induction false} PendingStep(input: seq<Line>, m: nat, n: nat)
    requires m <= n < |input|
    ensures Pending(input, m, n + 1) == Undecided(Pending(input, m, n), input[n])
  {
    if m > 0 {
      PendingStep(input, m - 1, n);
      var owner := OwnerOf(input[m - 1]);
      if owner.Test? {
        FateStep(input, m - 1, n, owner.key);
        UndecidedAdd(Pending(input, m - 1, n), owner.key, FateOf(input, m - 1, n, owner.key) == Held, input[n]);
      }
    }
  }

  /** The tests pending after one more line. */
  lemma PendingMore(input: seq<Line>, n: nat)
    requires n < |input|
    ensures var before, owner := Undecided(Pending(input, n, n), input[n]), OwnerOf(input[n]);
            Pending(input, n + 1, n + 1) ==
              if owner.Test? then AddKey(before, owner.key, Decides(input[n], owner.key) == Held) else before
  {
    PendingStep(input, n, n);
    var owner := OwnerOf(input[n]);
    if owner.Test? {
      FateStep(input, n, n, owner.key);
    }
  }

  // ---- The dictionary of buffers, in insertion order ----------------------------------

  predicate Has(buffers: seq<Entry>, key: Key) {
    buffers != [] && (buffers[0].key == key || Has(buffers[1..], key))
  }

  function Get(buffers: seq<Entry>, key: Key): seq<Piece> {
    if buffers == [] then []
    else if buffers[0].key == key then buffers[0].pieces
    else Get(buffers[1..], key)
  }

  /** `setdefault` and `append`. */
  function Add(buffers: seq<Entry>, key: Key, piece: Piece): seq<Entry> {
    if buffers == [] then [Entry(key, [piece])]
    else if buffers[0].key == key then [Entry(key, buffers[0].pieces + [piece])] + buffers[1..]
    else [buffers[0]] + Add(buffers[1..], key, piece)
  }

  /** `pop`. */
  function Remove(buffers: seq<Entry>, key: Key): seq<Entry> {
    if buffers == [] then []
    else if buffers[0].key == key then buffers[1..]
    else [buffers[0]] + Remove(buffers[1..], key)
  }

  function KeysOf(buffers: seq<Entry>, package: Option<string>): seq<Key> {
    if buffers == [] then []
    else if buffers[0].key.package == package then [buffers[0].key] + KeysOf(buffers[1..], package)
    else KeysOf(buffers[1..], package)
  }

  predicate OwnedBy(pieces: seq<Piece>, owner: Owner) {
    forall i :: 0 <= i < |pieces| ==> pieces[i].owner == owner
  }

  /** One entry for each key, holding only that test's output. */
  predicate Good(buffers: seq<Entry>) {
    buffers == [] ||
    (OwnedBy(buffers[0].pieces, Test(buffers[0].key)) && !Has(buffers[1..], buffers[0].key) && Good(buffers[1..]))
  }

  lemma {:induction false} AddGets(buffers: seq<Entry>, key: Key, piece: Piece, other: Key)
    ensures Get(Add(buffers, key, piece), other) == if other == key then Get(buffers, key) + [piece] else Get(buffers, other)
    ensures Has(Add(buffers, key, piece), other) <==> Has(buffers, other) || other == key
  {
    if buffers != [] && buffers[0].key != key {
      AddGets(buffers[1..], key, piece, other);
      assert Add(buffers, key, piece)[1..] == Add(buffers[1..], key, piece);
    } else if buffers != [] {
      assert Add(buffers, key, piece)[1..] == buffers[1..];
    }
  }

  lemma {:induction false} AddGood(buffers: seq<Entry>, key: Key, piece: Piece)
    requires Good(buffers) && piece.owner == Test(key)
    ensures Good(Add(buffers, key, piece))
  {
    if buffers != [] && buffers[0].key != key {
      AddGood(buffers[1..], key, piece);
      AddGets(buffers[1..], key, piece, buffers[0].key);
      assert Add(buffers, key, piece)[1..] == Add(buffers[1..], key, piece);
    } else if buffers != [] {
      assert Add(buffers, key, piece)[1..] == buffers[1..];
    }
  }

  lemma {:induction false} GetMissing(buffers: seq<Entry>, key: Key)
    requires !Has(buffers, key)
    ensures Get(buffers, key) == []
  {
    if buffers != [] {
      GetMissing(buffers[1..], key);
    }
  }

  lemma {:induction false} RemoveGets(buffers: seq<Entry>, key: Key, other: Key)
    requires Good(buffers)
    ensures Get(Remove(buffers, key), other) == if other == key then [] else Get(buffers, other)
    ensures Has(Remove(buffers, key), other) <==> Has(buffers, other) && other != key
  {
    if buffers != [] && buffers[0].key != key {
      RemoveGets(buffers[1..], key, other);
      assert Remove(buffers, key)[1..] == Remove(buffers[1..], key);
    } else if buffers != [] {
      GetMissing(buffers[1..], key);
    }
  }

  lemma {:induction false} RemoveGood(buffers: seq<Entry>, key: Key)
    requires Good(buffers)
    ensures Good(Remove(buffers, key))
  {
    if buffers != [] && buffers[0].key != key {
      RemoveGood(buffers[1..], key);
      RemoveGets(buffers[1..], key, buffers[0].key);
      assert Remove(buffers, key)[1..] == Remove(buffers[1..], key);
    }
  }

  lemma {:induction false} GetOwned(buffers: seq<Entry>, key: Key)
    requires Good(buffers)
    ensures OwnedBy(Get(buffers, key), Test(key))
  {
    if buffers != [] {
      GetOwned(buffers[1..], key);
    }
  }

  lemma {:induction false} KeysOfPackage(buffers: seq<Entry>, package: Option<string>, key: Key)
    ensures key in KeysOf(buffers, package) <==> Has(buffers, key) && key.package == package
  {
    if buffers != [] {
      KeysOfPackage(buffers[1..], package, key);
    }
  }

  function KeysIn(buffers: seq<Entry>): seq<Key> {
    if buffers == [] then [] else [buffers[0].key] + KeysIn(buffers[1..])
  }

  lemma {:induction false} HasIsIn(buffers: seq<Entry>, key: Key)
    ensures Has(buffers, key) <==> key in KeysIn(buffers)
  {
    if buffers != [] {
      HasIsIn(buffers[1..], key);
    }
  }

  lemma {:induction false} KeysAdd(buffers: seq<Entry>, key: Key, piece: Piece)
    ensures KeysIn(Add(buffers, key, piece)) == AddKey(KeysIn(buffers), key, true)
  {
    if buffers == [] {
      assert [Entry(key, [piece])][1..] == [];
    } else if buffers[0].key == key {
      assert Add(buffers, key, piece)[1..] == buffers[1..];
    } else {
      KeysAdd(buffers[1..], key, piece);
      assert Add(buffers, key, piece)[1..] == Add(buffers[1..], key, piece);
    }
  }

  function Minus(keys: seq<Key>, gone: seq<Key>): seq<Key> {
    if keys == [] then []
    else if keys[0] in gone then Minus(keys[1..], gone)
    else [keys[0]] + Minus(keys[1..], gone)
  }

  lemma {:induction false} MinusNone(keys: seq<Key>, gone: seq<Key>)
    requires forall key :: key in keys ==> key !in gone
    ensures Minus(keys, gone) == keys
  {
    if keys != [] {
      MinusNone(keys[1..], gone);
    }
  }

  lemma {:induction false} MinusTwice(keys: seq<Key>, key: Key, gone: seq<Key>)
    ensures Minus(Minus(keys, [key]), gone) == Minus(keys, [key] + gone)
  {
    if keys != [] {
      MinusTwice(keys[1..], key, gone);
    }
  }

  lemma {:induction false} MinusIsUndecided(keys: seq<Key>, gone: seq<Key>, line: Line)
    requires forall key :: key in keys ==> (key in gone <==> Decides(line, key) != Held)
    ensures Minus(keys, gone) == Undecided(keys, line)
  {
    if keys != [] {
      assert keys[0] in keys;
      MinusIsUndecided(keys[1..], gone, line);
    }
  }

  lemma {:induction false} KeysRemove(buffers: seq<Entry>, key: Key)
    requires Good(buffers)
    ensures KeysIn(Remove(buffers, key)) == Minus(KeysIn(buffers), [key])
  {
    if buffers != [] {
      if buffers[0].key == key {
        HasIsIn(buffers[1..], key);
        MinusNone(KeysIn(buffers[1..]), [key]);
      } else {
        KeysRemove(buffers[1..], key);
        assert Remove(buffers, key)[1..] == Remove(buffers[1..], key);
      }
    }
  }

  lemma {:induction false} KeysOfIsOfPackage(buffers: seq<Entry>, package: Option<string>)
    ensures KeysOf(buffers, package) == OfPackage(KeysIn(buffers), package)
  {
    if buffers != [] {
      KeysOfIsOfPackage(buffers[1..], package);
    }
  }

  lemma {:induction false} KeysOfDistinct(buffers: seq<Entry>, package: Option<string>)
    requires Good(buffers)
    ensures Distinct(KeysOf(buffers, package))
  {
    if buffers != [] {
      KeysOfDistinct(buffers[1..], package);
      KeysOfPackage(buffers[1..], package, buffers[0].key);
    }
  }

  /** The buffers of these tests, test by test. */
  function Gets(buffers: seq<Entry>, keys: seq<Key>): seq<Piece> {
    if keys == [] then [] else Get(buffers, keys[0]) + Gets(buffers, keys[1..])
  }

  lemma {:induction false} GetsElsewhere(buffers: seq<Entry>, key: Key, keys: seq<Key>)
    requires Good(buffers) && key !in keys
    ensures Gets(Remove(buffers, key), keys) == Gets(buffers, keys)
  {
    if keys != [] {
      GetsElsewhere(buffers, key, keys[1..]);
      RemoveGets(buffers, key, keys[0]);
    }
  }

  // ---- The output ---------------------------------------------------------------------

  function OfOwner(pieces: seq<Piece>, owner: Owner): seq<Piece> {
    if pieces == [] then []
    else
      var before, last := OfOwner(pieces[..|pieces| - 1], owner), pieces[|pieces| - 1];
      if last.owner == owner then before + [last] else before
  }

  lemma OfOwnerOne(pieces: seq<Piece>, piece: Piece, owner: Owner)
    ensures var before := OfOwner(pieces, owner);
            OfOwner(pieces + [piece], owner) == if piece.owner == owner then before + [piece] else before
  {
    assert (pieces + [piece])[..|pieces|] == pieces;
  }

  lemma {:induction false} OfOwnerAppend(pieces: seq<Piece>, more: seq<Piece>, owner: Owner)
    ensures OfOwner(pieces + more, owner) == OfOwner(pieces, owner) + OfOwner(more, owner)
  {
    if more == [] {
      assert pieces + more == pieces;
    } else {
      var before, last := more[..|more| - 1], more[|more| - 1];
      OfOwnerAppend(pieces, before, owner);
      OfOwnerOne(pieces + before, last, owner);
      assert more == before + [last];
      Regroup(pieces, before, [last]);
      Regroup(OfOwner(pieces, owner), OfOwner(before, owner), [last]);
    }
  }

  lemma {:induction false} OwnedOf(pieces: seq<Piece>, writer: Owner, owner: Owner)
    requires OwnedBy(pieces, writer)
    ensures OfOwner(pieces, owner) == if writer == owner then pieces else []
  {
    if pieces != [] {
      var n := |pieces| - 1;
      OwnedOf(pieces[..n], writer, owner);
      assert pieces == pieces[..n] + [pieces[n]];
    }
  }

  /** The buffers without these keys, and what printing theirs in turn writes. */
  function Rid(buffers: seq<Entry>, keys: seq<Key>): seq<Entry>
    decreases keys
  {
    if keys == [] then buffers else Rid(Remove(buffers, keys[0]), keys[1..])
  }

  function Flushed(buffers: seq<Entry>, keys: seq<Key>): seq<Piece>
    decreases keys
  {
    if keys == [] then [] else Get(buffers, keys[0]) + Flushed(Remove(buffers, keys[0]), keys[1..])
  }

  lemma {:induction false} KeysRid(buffers: seq<Entry>, keys: seq<Key>)
    requires Good(buffers)
    ensures KeysIn(Rid(buffers, keys)) == Minus(KeysIn(buffers), keys)
    decreases keys
  {
    if keys == [] {
      MinusNone(KeysIn(buffers), []);
    } else {
      RemoveGood(buffers, keys[0]);
      KeysRemove(buffers, keys[0]);
      KeysRid(Remove(buffers, keys[0]), keys[1..]);
      MinusTwice(KeysIn(buffers), keys[0], keys[1..]);
      assert keys == [keys[0]] + keys[1..];
    }
  }

  /** Flushing writes the buffers one after the other. */
  lemma {:induction false} FlushedIsGets(buffers: seq<Entry>, keys: seq<Key>)
    requires Good(buffers) && Distinct(keys)
    ensures Flushed(buffers, keys) == Gets(buffers, keys)
    decreases keys
  {
    if keys != [] {
      RemoveGood(buffers, keys[0]);
      FlushedIsGets(Remove(buffers, keys[0]), keys[1..]);
      GetsElsewhere(buffers, keys[0], keys[1..]);
    }
  }

  lemma {:induction false} RidGood(buffers: seq<Entry>, keys: seq<Key>)
    requires Good(buffers)
    ensures Good(Rid(buffers, keys))
    decreases keys
  {
    if keys != [] {
      RemoveGood(buffers, keys[0]);
      RidGood(Remove(buffers, keys[0]), keys[1..]);
    }
  }

  lemma {:induction false} RidGets(buffers: seq<Entry>, keys: seq<Key>, key: Key)
    requires Good(buffers)
    ensures Get(Rid(buffers, keys), key) == if key in keys then [] else Get(buffers, key)
    ensures Has(Rid(buffers, keys), key) <==> Has(buffers, key) && key !in keys
    decreases keys
  {
    if keys != [] {
      RemoveGood(buffers, keys[0]);
      RemoveGets(buffers, keys[0], key);
      RidGets(Remove(buffers, keys[0]), keys[1..], key);
    }
  }

  /** Flushing writes each of these tests' buffers once, whole and in order. */
  lemma {:induction false} FlushedOf(buffers: seq<Entry>, keys: seq<Key>, owner: Owner)
    requires Good(buffers)
    ensures OfOwner(Flushed(buffers, keys), owner) ==
              if owner.Test? && owner.key in keys then Get(buffers, owner.key) else []
    decreases keys
  {
    if keys != [] {
      var key, rest := keys[0], Remove(buffers, keys[0]);
      RemoveGood(buffers, key);
      FlushedOf(rest, keys[1..], owner);
      GetOwned(buffers, key);
      OwnedOf(Get(buffers, key), Test(key), owner);
      OfOwnerAppend(Get(buffers, key), Flushed(rest, keys[1..]), owner);
      if owner.Test? {
        RemoveGets(buffers, key, owner.key);
      }
    }
  }

  // ---- One line -----------------------------------------------------------------------

  /** Buffers and output hold of `key`'s lines what they should. */
  ghost predicate Tracks(input: seq<Line>, n: nat, buffers: seq<Entry>, stdout: seq<Piece>, key: Key)
    requires n <= |input|
  {
    Get(buffers, key) == WithFate(input, n, n, key, Held) &&
    OfOwner(stdout, Test(key)) == WithFate(input, n, n, key, Printed)
  }

  /** The effect a line should have on `key`: it adds its own output and then decides. */
  ghost predicate Moved(input: seq<Line>, n: nat, buffers: seq<Entry>, stdout: seq<Piece>,
                        buffers': seq<Entry>, stdout': seq<Piece>, key: Key)
    requires n < |input|
  {
    var held := Get(buffers, key) + Own(input, n, key);
    Get(buffers', key) == (if Decides(input[n], key) == Held then held else []) &&
    OfOwner(stdout', Test(key)) == OfOwner(stdout, Test(key)) + if Decides(input[n], key) == Printed then held else []
  }

  lemma TracksOn(input: seq<Line>, n: nat, buffers: seq<Entry>, stdout: seq<Piece>,
                 buffers': seq<Entry>, stdout': seq<Piece>, key: Key)
    requires n < |input| && Tracks(input, n, buffers, stdout, key)
    requires Moved(input, n, buffers, stdout, buffers', stdout', key)
    ensures Tracks(input, n + 1, buffers', stdout', key)
  {
    OneMore(input, n, key, Printed);
  }

  /** The output of lines that belong to no test. */
  function Plain(input: seq<Line>, n: nat): seq<Piece>
    requires n <= |input|
  {
    if n == 0 then []
    else if OwnerOf(input[n - 1]) == Nobody then Plain(input, n - 1) + [PieceOf(input, n - 1)]
    else Plain(input, n - 1)
  }

  function Everything(input: seq<Line>, n: nat): seq<Piece>
    requires n <= |input|
  {
    if n == 0 then [] else Everything(input, n - 1) + [PieceOf(input, n - 1)]
  }

  function Texts(input: seq<Line>, n: nat): string
    requires n <= |input|
  {
    if n == 0 then "" else Texts(input, n - 1) + input[n - 1].text
  }

  datatype Log = Log(buffers: seq<Entry>, stdout: seq<Piece>)

  /** What a test's own line leaves. */
  function AfterTest(log: Log, key: Key, action: Action, piece: Piece): Log {
    var added := Add(log.buffers, key, piece);
    match action
    case Fail => Log(Remove(added, key), log.stdout + Get(added, key))
    case Pass => Log(Remove(added, key), log.stdout)
    case Skip => Log(Remove(added, key), log.stdout)
    case Otherwise => Log(added, log.stdout)
  }

  function AfterPackage(log: Log, package: Option<string>, action: Action, piece: Piece): Log {
    var keys := if action == Fail then KeysOf(log.buffers, package) else [];
    Log(Rid(log.buffers, keys), log.stdout + Flushed(log.buffers, keys) + [piece])
  }

  function AfterLine(input: seq<Line>, n: nat, verbose: bool, log: Log): Log
    requires n < |input|
  {
    var piece := PieceOf(input, n);
    if input[n].event.None? then log.(stdout := log.stdout + [piece])
    else
      match input[n].event.value
      case PackageEvent(package, action, _) => AfterPackage(log, package, action, piece)
      case TestEvent(key, action, _) =>
        if verbose then log.(stdout := log.stdout + [piece]) else AfterTest(log, key, action, piece)
  }

  lemma TestGets(log: Log, key: Key, action: Action, piece: Piece, other: Key)
    requires Good(log.buffers) && piece.owner == Test(key)
    ensures var next := AfterTest(log, key, action, piece).buffers;
            Good(next) &&
            Get(next, other) ==
              if other != key then Get(log.buffers, other)
              else if action == Otherwise then Get(log.buffers, key) + [piece] else []
  {
    var added := Add(log.buffers, key, piece);
    AddGood(log.buffers, key, piece);
    AddGets(log.buffers, key, piece, other);
    RemoveGood(added, key);
    RemoveGets(added, key, other);
  }

  lemma BufferPrints(buffers: seq<Entry>, stdout: seq<Piece>, key: Key, owner: Owner)
    requires Good(buffers)
    ensures OfOwner(stdout + Get(buffers, key), owner) ==
              if owner == Test(key) then OfOwner(stdout, owner) + Get(buffers, key) else OfOwner(stdout, owner)
  {
    GetOwned(buffers, key);
    OwnedOf(Get(buffers, key), Test(key), owner);
    OfOwnerAppend(stdout, Get(buffers, key), owner);
  }

  lemma TestPrints(log: Log, key: Key, action: Action, piece: Piece, owner: Owner)
    requires Good(log.buffers) && piece.owner == Test(key)
    ensures OfOwner(AfterTest(log, key, action, piece).stdout, owner) ==
              if owner == Test(key) && action == Fail then OfOwner(log.stdout, owner) + (Get(log.buffers, key) + [piece])
              else OfOwner(log.stdout, owner)
  {
    if action == Fail {
      AddGood(log.buffers, key, piece);
      AddGets(log.buffers, key, piece, key);
      BufferPrints(Add(log.buffers, key, piece), log.stdout, key, owner);
    }
  }

  /** A line that says nothing about `key` and leaves its buffer and output alone. */
  lemma Unmoved(input: seq<Line>, n: nat, buffers: seq<Entry>, stdout: seq<Piece>,
                buffers': seq<Entry>, stdout': seq<Piece>, key: Key)
    requires n < |input| && Decides(input[n], key) == Held && OwnerOf(input[n]) != Test(key)
    requires Get(buffers', key) == Get(buffers, key) && OfOwner(stdout', Test(key)) == OfOwner(stdout, Test(key))
    ensures Moved(input, n, buffers, stdout, buffers', stdout', key)
  {
  }

  lemma OwnTestMoves(input: seq<Line>, n: nat, log: Log)
    requires n < |input| && OwnerOf(input[n]).Test? && Good(log.buffers)
    ensures var next := AfterLine(input, n, false, log);
            Moved(input, n, log.buffers, log.stdout, next.buffers, next.stdout, OwnerOf(input[n]).key)
  {
    var event, piece := input[n].event.value, PieceOf(input, n);
    TestGets(log, event.key, event.action, piece, event.key);
    TestPrints(log, event.key, event.action, piece, Test(event.key));
  }

  lemma TestMoves(input: seq<Line>, n: nat, log: Log, key: Key)
    requires n < |input| && OwnerOf(input[n]).Test? && Good(log.buffers)
    ensures var next := AfterLine(input, n, false, log);
            Good(next.buffers) && Moved(input, n, log.buffers, log.stdout, next.buffers, next.stdout, key)
  {
    var event, piece := input[n].event.value, PieceOf(input, n);
    TestGets(log, event.key, event.action, piece, key);
    if key == event.key {
      OwnTestMoves(input, n, log);
    } else {
      TestPrints(log, event.key, event.action, piece, Test(key));
      var next := AfterTest(log, event.key, event.action, piece);
      Unmoved(input, n, log.buffers, log.stdout, next.buffers, next.stdout, key);
    }
  }

  lemma PackageMoves(input: seq<Line>, n: nat, log: Log, key: Key)
    requires n < |input| && input[n].event.Some? && input[n].event.value.PackageEvent? && Good(log.buffers)
    ensures var next := AfterLine(input, n, false, log);
            Good(next.buffers) && Moved(input, n, log.buffers, log.stdout, next.buffers, next.stdout, key)
  {
    var event, piece := input[n].event.value, PieceOf(input, n);
    var keys := if event.action == Fail then KeysOf(log.buffers, event.package) else [];
    RidGood(log.buffers, keys);
    RidGets(log.buffers, keys, key);
    FlushedOf(log.buffers, keys, Test(key));
    OfOwnerAppend(log.stdout, Flushed(log.buffers, keys), Test(key));
    OfOwnerOne(log.stdout + Flushed(log.buffers, keys), piece, Test(key));
    KeysOfPackage(log.buffers, event.package, key);
    if !Has(log.buffers, key) {
      GetMissing(log.buffers, key);
    }
  }

  /** Every line has the effect it should, on every test. */
  lemma LineMoves(input: seq<Line>, n: nat, log: Log, key: Key)
    requires n < |input| && Good(log.buffers)
    ensures var next := AfterLine(input, n, false, log);
            Good(next.buffers) && Moved(input, n, log.buffers, log.stdout, next.buffers, next.stdout, key)
  {
    if input[n].event.None? {
      OfOwnerOne(log.stdout, PieceOf(input, n), Test(key));
    } else if OwnerOf(input[n]).Test? {
      TestMoves(input, n, log, key);
    } else {
      PackageMoves(input, n, log, key);
    }
  }

  lemma PackagePlain(log: Log, package: Option<string>, action: Action, piece: Piece)
    requires Good(log.buffers) && piece.owner == Nobody
    ensures OfOwner(AfterPackage(log, package, action, piece).stdout, Nobody) == OfOwner(log.stdout, Nobody) + [piece]
  {
    var keys := if action == Fail then KeysOf(log.buffers, package) else [];
    FlushedOf(log.buffers, keys, Nobody);
    OfOwnerAppend(log.stdout, Flushed(log.buffers, keys), Nobody);
    OfOwnerOne(log.stdout + Flushed(log.buffers, keys), piece, Nobody);
  }

  /** Lines that belong to no test are printed at once, in both modes. */
  lemma LinePlain(input: seq<Line>, n: nat, verbose: bool, log: Log)
    requires n < |input| && Good(log.buffers)
    ensures var before := OfOwner(log.stdout, Nobody);
            OfOwner(AfterLine(input, n, verbose, log).stdout, Nobody) ==
              if OwnerOf(input[n]) == Nobody then before + [PieceOf(input, n)] else before
  {
    var piece := PieceOf(input, n);
    if input[n].event.None? || (OwnerOf(input[n]).Test? && verbose) {
      OfOwnerOne(log.stdout, piece, Nobody);
    } else if OwnerOf(input[n]).Test? {
      TestPrints(log, input[n].event.value.key, input[n].event.value.action, piece, Nobody);
    } else {
      PackagePlain(log, input[n].event.value.package, input[n].event.value.action, piece);
    }
  }

  /** A failing package leaves none of its tests' output behind. */
  lemma FailureEmpties(input: seq<Line>, n: nat, verbose: bool, log: Log, key: Key)
    requires n < |input| && Good(log.buffers)
    requires input[n].event.Some? && input[n].event.value.PackageEvent? && input[n].event.value.action == Fail
    requires key.package == input[n].event.value.package
    ensures !Has(AfterLine(input, n, verbose, log).buffers, key)
  {
    KeysOfPackage(log.buffers, key.package, key);
    RidGets(log.buffers, KeysOf(log.buffers, key.package), key);
  }

  ghost predicate TracksAll(input: seq<Line>, n: nat, log: Log)
    requires n <= |input|
  {
    forall key: Key :: Tracks(input, n, log.buffers, log.stdout, key)
  }

  /** The log after `n` lines. */
  ghost predicate Right(input: seq<Line>, n: nat, verbose: bool, log: Log)
    requires n <= |input|
  {
    Good(log.buffers) && OfOwner(log.stdout, Nobody) == Plain(input, n) &&
    if verbose then log.buffers == [] && log.stdout == Everything(input, n)
    else
      KeysIn(log.buffers) == Pending(input, n, n) && log.stdout == Output(input, n) &&
      TracksAll(input, n, log)
  }

  lemma AdvancesVerbosely(input: seq<Line>, n: nat, log: Log)
    requires n < |input| && log.buffers == [] && log.stdout == Everything(input, n)
    ensures AfterLine(input, n, true, log) == Log([], Everything(input, n + 1))
  {
    assert log.stdout + [] == log.stdout;
  }

  lemma AdvancesFor(input: seq<Line>, n: nat, log: Log, key: Key)
    requires n < |input| && Good(log.buffers) && Tracks(input, n, log.buffers, log.stdout, key)
    ensures var next := AfterLine(input, n, false, log);
            Good(next.buffers) && Tracks(input, n + 1, next.buffers, next.stdout, key)
  {
    var next := AfterLine(input, n, false, log);
    LineMoves(input, n, log, key);
    TracksOn(input, n, log.buffers, log.stdout, next.buffers, next.stdout, key);
  }

  lemma AdvancesQuietly(input: seq<Line>, n: nat, log: Log)
    requires n < |input| && Good(log.buffers) && TracksAll(input, n, log)
    ensures var next := AfterLine(input, n, false, log); var m := n + 1;
            Good(next.buffers) && TracksAll(input, m, next)
  {
    var next := AfterLine(input, n, false, log);
    AdvancesFor(input, n, log, Key(None, ""));
    var m := n + 1;
    forall key: Key ensures Tracks(input, m, next.buffers, next.stdout, key) {
      AdvancesFor(input, n, log, key);
    }
  }

  lemma KeysAfterTest(input: seq<Line>, n: nat, log: Log)
    requires n < |input| && OwnerOf(input[n]).Test? && Good(log.buffers)
    ensures var key := OwnerOf(input[n]).key;
            KeysIn(AfterLine(input, n, false, log).buffers) ==
            AddKey(Undecided(KeysIn(log.buffers), input[n]), key, Decides(input[n], key) == Held)
  {
    var event, piece := input[n].event.value, PieceOf(input, n);
    var added := Add(log.buffers, event.key, piece);
    AddGood(log.buffers, event.key, piece);
    KeysAdd(log.buffers, event.key, piece);
    UndecidedAdd(KeysIn(log.buffers), event.key, true, input[n]);
    if event.action == Otherwise {
      MinusNone(KeysIn(added), []);
      MinusIsUndecided(KeysIn(added), [], input[n]);
    } else {
      KeysRemove(added, event.key);
      MinusIsUndecided(KeysIn(added), [event.key], input[n]);
    }
  }

  lemma KeysAfterPackage(input: seq<Line>, n: nat, log: Log)
    requires n < |input| && !OwnerOf(input[n]).Test? && Good(log.buffers)
    ensures KeysIn(AfterLine(input, n, false, log).buffers) == Undecided(KeysIn(log.buffers), input[n])
  {
    var keys := if input[n].event.Some? && input[n].event.value.action == Fail
                then KeysOf(log.buffers, input[n].event.value.package) else [];
    KeysRid(log.buffers, keys);
    forall key | key in KeysIn(log.buffers) ensures key in keys <==> Decides(input[n], key) != Held {
      HasIsIn(log.buffers, key);
      if keys != [] || (input[n].event.Some? && input[n].event.value.action == Fail) {
        KeysOfPackage(log.buffers, input[n].event.value.package, key);
      }
    }
    MinusIsUndecided(KeysIn(log.buffers), keys, input[n]);
  }

  /** The dictionary keeps its keys in the order their tests were held from. */
  lemma KeysAdvance(input: seq<Line>, n: nat, log: Log)
    requires n < |input| && Good(log.buffers) && KeysIn(log.buffers) == Pending(input, n, n)
    ensures KeysIn(AfterLine(input, n, false, log).buffers) == Pending(input, n + 1, n + 1)
  {
    PendingMore(input, n);
    if OwnerOf(input[n]).Test? {
      KeysAfterTest(input, n, log);
    } else {
      KeysAfterPackage(input, n, log);
    }
  }

  lemma {:induction false} GetsAreHeld(input: seq<Line>, n: nat, log: Log, keys: seq<Key>)
    requires n <= |input| && TracksAll(input, n, log)
    ensures Gets(log.buffers, keys) == HeldOf(input, n, keys)
  {
    if keys != [] {
      GetsAreHeld(input, n, log, keys[1..]);
      assert Tracks(input, n, log.buffers, log.stdout, keys[0]);
    }
  }

  lemma TestReleases(input: seq<Line>, n: nat, log: Log)
    requires n < |input| && OwnerOf(input[n]).Test?
    requires TracksAll(input, n, log)
    ensures AfterLine(input, n, false, log).stdout == log.stdout + Released(input, n)
  {
    var event := input[n].event.value;
    AddGets(log.buffers, event.key, PieceOf(input, n), event.key);
    assert Tracks(input, n, log.buffers, log.stdout, event.key);
    assert log.stdout + [] == log.stdout;
  }

  lemma PackageReleases(input: seq<Line>, n: nat, log: Log)
    requires n < |input| && input[n].event.Some? && input[n].event.value.PackageEvent?
    requires Good(log.buffers) && KeysIn(log.buffers) == Pending(input, n, n)
    requires TracksAll(input, n, log)
    ensures AfterLine(input, n, false, log).stdout == log.stdout + Released(input, n)
  {
    var event := input[n].event.value;
    var keys := if event.action == Fail then KeysOf(log.buffers, event.package) else [];
    KeysOfIsOfPackage(log.buffers, event.package);
    KeysOfDistinct(log.buffers, event.package);
    FlushedIsGets(log.buffers, keys);
    GetsAreHeld(input, n, log, keys);
    Regroup(log.stdout, Flushed(log.buffers, keys), [PieceOf(input, n)]);
  }

  /** Every line puts out exactly what it releases, after all that came before. */
  lemma LineReleases(input: seq<Line>, n: nat, log: Log)
    requires n < |input| && Good(log.buffers) && KeysIn(log.buffers) == Pending(input, n, n)
    requires TracksAll(input, n, log)
    ensures AfterLine(input, n, false, log).stdout == log.stdout + Released(input, n)
  {
    if OwnerOf(input[n]).Test? {
      TestReleases(input, n, log);
    } else if input[n].event.Some? {
      PackageReleases(input, n, log);
    }
  }

  lemma Advances(input: seq<Line>, n: nat, verbose: bool, log: Log, m: nat, next: Log)
    requires n < |input| && Right(input, n, verbose, log) && m == n + 1 && next == AfterLine(input, n, verbose, log)
    ensures Right(input, m, verbose, next)
  {
    LinePlain(input, n, verbose, log);
    if verbose {
      AdvancesVerbosely(input, n, log);
    } else {
      AdvancesQuietly(input, n, log);
      KeysAdvance(input, n, log);
      LineReleases(input, n, log);
    }
  }

  /** The log after `n` lines, line by line from an empty one. */
  function LogAfter(input: seq<Line>, n: nat, verbose: bool): Log
    requires n <= |input|
  {
    if n == 0 then Log([], []) else AfterLine(input, n - 1, verbose, LogAfter(input, n - 1, verbose))
  }

  /** It is right after any number of lines. */
  lemma {:induction false} LogIsRight(input: seq<Line>, n: nat, verbose: bool) returns (log: Log)
    requires n <= |input|
    ensures log == LogAfter(input, n, verbose) && Right(input, n, verbose, log)
  {
    if n == 0 {
      log := Log([], []);
    } else {
      log := LogAfter(input, n, verbose);
      assert log == AfterLine(input, n - 1, verbose, LogAfter(input, n - 1, verbose));
      var before := LogIsRight(input, n - 1, verbose);
      Advances(input, n - 1, verbose, before, n, log);
    }
  }

  class Printer {
    const input: seq<Line>
    const verbose: bool

    var at: nat
    var saved: string
    var buffers: seq<Entry>
    var stdout: seq<Piece>

    ghost predicate Valid()
      reads this
    {
      at <= |input| && saved == Texts(input, at) && Log(buffers, stdout) == LogAfter(input, at, verbose)
    }

    constructor (input: seq<Line>, verbose: bool)
      ensures Valid() && at == 0 && this.input == input && this.verbose == verbose
    {
      this.input, this.verbose := input, verbose;
      at, saved, buffers, stdout := 0, "", [], [];
    }

    /** Prints and empties the buffers of a package, in the order their tests began. */
    method Flush(package: Option<string>)
      modifies `buffers, `stdout
      ensures buffers == Rid(old(buffers), KeysOf(old(buffers), package))
      ensures stdout == old(stdout) + Flushed(old(buffers), KeysOf(old(buffers), package))
    {
      var keys := KeysOf(buffers, package);
      var i := 0;
      while i < |keys|
        invariant 0 <= i <= |keys|
        invariant Rid(buffers, keys[i..]) == Rid(old(buffers), keys)
        invariant stdout + Flushed(buffers, keys[i..]) == old(stdout) + Flushed(old(buffers), keys)
      {
        assert keys[i..][1..] == keys[i + 1..];
        stdout := stdout + Get(buffers, keys[i]);
        buffers := Remove(buffers, keys[i]);
        i := i + 1;
      }
    }

    method PackageLine(package: Option<string>, action: Action, output: string)
      modifies `buffers, `stdout
      ensures Log(buffers, stdout) ==
                AfterPackage(Log(old(buffers), old(stdout)), package, action, Piece(at, Nobody, output))
    {
      if action == Fail {
        Flush(package);
      }
      stdout := stdout + [Piece(at, Nobody, output)];
    }

    method TestLine(key: Key, action: Action, output: string)
      modifies `buffers, `stdout
      ensures Log(buffers, stdout) == AfterTest(Log(old(buffers), old(stdout)), key, action, Piece(at, Test(key), output))
    {
      buffers := Add(buffers, key, Piece(at, Test(key), output));
      if action == Fail {
        stdout := stdout + Get(buffers, key);
        buffers := Remove(buffers, key);
      } else if action == Pass || action == Skip {
        buffers := Remove(buffers, key);
      }
    }

    /** The work for one line. */
    method Handle(line: Line)
      requires at < |input| && line == input[at]
      modifies `saved, `buffers, `stdout
      ensures saved == old(saved) + line.text
      ensures Log(buffers, stdout) == AfterLine(input, at, verbose, Log(old(buffers), old(stdout)))
    {
      saved := saved + line.text;
      if line.event.None? {
        stdout := stdout + [Piece(at, Nobody, line.text)];
      } else {
        match line.event.value {
          case PackageEvent(package, action, output) =>
            PackageLine(package, action, output);
          case TestEvent(key, action, output) =>
            if verbose {
              stdout := stdout + [Piece(at, Test(key), output)];
            } else {
              TestLine(key, action, output);
            }
        }
      }
    }

    method Step()
      requires Valid() && at < |input|
      modifies this
      ensures Valid() && at == old(at) + 1
      ensures Log(buffers, stdout) == AfterLine(input, old(at), verbose, Log(old(buffers), old(stdout)))
    {
      Handle(input[at]);
      at := at + 1;
    }

    method Run()
      requires Valid()
      modifies this
      ensures Valid() && at == |input| && Right(input, |input|, verbose, Log(buffers, stdout))
    {
      while at < |input|
        invariant Valid()
      {
        Step();
      }
      ghost var log := LogIsRight(input, |input|, verbose);
    }
  }
}
