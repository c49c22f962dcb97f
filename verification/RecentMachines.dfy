/**
The last few machines picked in each workspace, kept in the browser's storage.
Every call cuts the list to five; nothing is lost by that against a list that
was never cut.
*/
module RecentMachines {
  import opened Wrappers

  const MAX := 5

  datatype Item = Id(id: string) | NotText

  /** A stored text, as far as reading it back can tell: malformed, some other value, or an array. */
  datatype Stored = Malformed | Other | Array(items: seq<Item>)

  // ---- Lists ------------------------------------------------------------------------

  function Ids(items: seq<Item>): seq<string> {
    if items == [] then []
    else if items[0].Id? then [items[0].id] + Ids(items[1..])
    else Ids(items[1..])
  }

  function First(ids: seq<string>, n: nat): seq<string> {
    if |ids| <= n then ids else ids[..n]
  }

  function Without(ids: seq<string>, id: string): seq<string> {
    if ids == [] then []
    else if ids[0] == id then Without(ids[1..], id)
    else [ids[0]] + Without(ids[1..], id)
  }

  function AsItems(ids: seq<string>): seq<Item> {
    if ids == [] then [] else [Id(ids[0])] + AsItems(ids[1..])
  }

  lemma {:induction false} IdsOfItems(ids: seq<string>)
    ensures Ids(AsItems(ids)) == ids
  {
    if ids != [] {
      IdsOfItems(ids[1..]);
      assert AsItems(ids)[1..] == AsItems(ids[1..]);
    }
  }

  /** Texts are kept in order, and nothing else is. */
  lemma {:induction false} IdsInOrder(a: seq<Item>, b: seq<Item>)
    ensures Ids(a + b) == Ids(a) + Ids(b)
    ensures |a| == 1 ==> Ids(a) == if a[0].Id? then [a[0].id] else []
  {
    if a == [] {
      assert a + b == b;
    } else {
      IdsInOrder(a[1..], b);
      assert (a + b)[1..] == a[1..] + b;
    }
  }

  // ---- The whole history ------------------------------------------------------------

  /** All ids of a history, each once, the most recent first. */
  function ByRecency(history: seq<string>): seq<string> {
    if history == [] then []
    else
      var last := history[|history| - 1];
      [last] + Without(ByRecency(history[..|history| - 1]), last)
  }

  /** The last time `id` occurs, or -1. */
  function LastUse(history: seq<string>, id: string): (r: int)
    ensures -1 <= r < |history| && (r >= 0 <==> id in history)
    ensures r >= 0 ==> history[r] == id && forall j :: r < j < |history| ==> history[j] != id
    ensures r < 0 ==> forall j :: 0 <= j < |history| ==> history[j] != id
  {
    if history == [] then -1
    else if history[|history| - 1] == id then |history| - 1
    else
      var r := LastUse(history[..|history| - 1], id);
      assert history == history[..|history| - 1] + [history[|history| - 1]];
      r
  }

  /** Each id is used later than the ones after it. */
  predicate Latest(history: seq<string>, ids: seq<string>) {
    forall i, j :: 0 <= i < j < |ids| ==> LastUse(history, ids[i]) > LastUse(history, ids[j])
  }

  lemma {:induction false} WithoutMembers(ids: seq<string>, id: string)
    ensures forall x :: x in Without(ids, id) <==> x in ids && x != id
    ensures |Without(ids, id)| <= |ids|
  {
    if ids != [] {
      WithoutMembers(ids[1..], id);
      assert forall x :: x in ids <==> x == ids[0] || x in ids[1..];
    }
  }

  lemma {:induction false} WithoutAbsent(ids: seq<string>, id: string)
    requires id !in ids
    ensures Without(ids, id) == ids
  {
    if ids != [] {
      WithoutAbsent(ids[1..], id);
    }
  }

  lemma {:induction false} WithoutAt(ids: seq<string>, i: nat)
    requires Distinct(ids) && i < |ids|
    ensures Without(ids, ids[i]) == ids[..i] + ids[i + 1..]
  {
    if i == 0 {
      WithoutAbsent(ids[1..], ids[0]);
    } else {
      WithoutAt(ids[1..], i - 1);
      assert ids[1..][..i - 1] == ids[1..i] && ids[1..][i..] == ids[i + 1..];
      assert ids[..i] == [ids[0]] + ids[1..i];
    }
  }

  lemma LatestSkip(history: seq<string>, ids: seq<string>, k: nat)
    requires Latest(history, ids) && k < |ids|
    ensures Latest(history, ids[..k] + ids[k + 1..])
  {
    var rest := ids[..k] + ids[k + 1..];
    forall i, j | 0 <= i < j < |rest| ensures LastUse(history, rest[i]) > LastUse(history, rest[j]) {
      var i', j' := if i < k then i else i + 1, if j < k then j else j + 1;
      assert rest[i] == ids[i'] && rest[j] == ids[j'];
    }
  }

  lemma Forget(history: seq<string>, ids: seq<string>, id: string)
    requires Distinct(ids) && Latest(history, ids)
    ensures Latest(history, Without(ids, id))
  {
    if id in ids {
      var i :| 0 <= i < |ids| && ids[i] == id;
      WithoutAt(ids, i);
      LatestSkip(history, ids, i);
    } else {
      WithoutAbsent(ids, id);
    }
  }

  lemma LatestFront(before: seq<string>, last: string, rest: seq<string>)
    requires Latest(before, rest) && last !in rest
    ensures Latest(before + [last], [last] + rest)
  {
    var history, ids := before + [last], [last] + rest;
    assert history[..|history| - 1] == before;
    forall i, j | 0 <= i < j < |ids| ensures LastUse(history, ids[i]) > LastUse(history, ids[j]) {
      assert ids[j] == rest[j - 1];
      if i > 0 {
        assert ids[i] == rest[i - 1];
      }
    }
  }

  /** The reference list has every id of the history, once, ordered by last use. */
  lemma {:induction false} RecencyOrder(history: seq<string>)
    ensures Distinct(ByRecency(history)) && Latest(history, ByRecency(history))
    ensures forall id :: id in ByRecency(history) <==> id in history
  {
    if history != [] {
      var before, last := history[..|history| - 1], history[|history| - 1];
      RecencyOrder(before);
      Forget(before, ByRecency(before), last);
      WithoutMembers(ByRecency(before), last);
      LatestFront(before, last, Without(ByRecency(before), last));
      assert history == before + [last];
    }
  }

  function Next(ids: seq<string>, id: string): seq<string> {
    First([id] + Without(ids, id), MAX)
  }

  /** Cutting before the next id is put in front loses nothing that the cut after it keeps. */
  lemma CutEarly(ids: seq<string>, id: string)
    requires Distinct(ids)
    ensures Next(First(ids, MAX), id) == Next(ids, id)
  {
    if id !in ids {
      WithoutAbsent(ids, id);
      WithoutAbsent(First(ids, MAX), id);
    } else {
      var i :| 0 <= i < |ids| && ids[i] == id;
      WithoutAt(ids, i);
      if i < MAX {
        WithoutAt(First(ids, MAX), i);
      } else {
        WithoutAbsent(First(ids, MAX), id);
      }
    }
  }

  lemma Recalled(past: seq<string>, id: string)
    ensures Next(First(ByRecency(past), MAX), id) == First(ByRecency(past + [id]), MAX)
  {
    RecencyOrder(past);
    CutEarly(ByRecency(past), id);
    assert (past + [id])[..|past|] == past;
  }

  /** The list after every call of a history, cutting each time, from empty storage. */
  function AfterCalls(history: seq<string>): seq<string> {
    if history == [] then [] else Next(AfterCalls(history[..|history| - 1]), history[|history| - 1])
  }

  lemma {:induction false} CuttingLosesNothing(history: seq<string>)
    ensures AfterCalls(history) == First(ByRecency(history), MAX)
  {
    if history != [] {
      var before := history[..|history| - 1];
      CuttingLosesNothing(before);
      Recalled(before, history[|history| - 1]);
      assert history == before + [history[|history| - 1]];
    }
  }

  // ---- The storage ------------------------------------------------------------------

  function Key(workspace: string): string {
    "pb-recent-machines:" + workspace
  }

  lemma KeysDiffer(workspace: string, other: string)
    ensures Key(workspace) == Key(other) <==> workspace == other
  {
    var n := |"pb-recent-machines:"|;
    assert Key(workspace)[n..] == workspace && Key(other)[n..] == other;
  }

  /** What reading the stored list gives: its texts, at most five, or nothing if it is not a list. */
  function Listed(storage: map<string, Stored>, workspace: string): seq<string> {
    if Key(workspace) in storage && storage[Key(workspace)].Array?
    then First(Ids(storage[Key(workspace)].items), MAX) else []
  }

  function Past(history: map<string, seq<string>>, workspace: string): seq<string> {
    if workspace in history then history[workspace] else []
  }

  lemma StoresElsewhere(storage: map<string, Stored>, workspace: string, value: Stored, other: string)
    requires other != workspace
    ensures Listed(storage[Key(workspace) := value], other) == Listed(storage, other)
  {
    KeysDiffer(workspace, other);
  }

  /** What is stored is read back, and other workspaces' lists are as before. */
  lemma Stores(storage: map<string, Stored>, workspace: string, ids: seq<string>)
    requires |ids| <= MAX
    ensures var now := storage[Key(workspace) := Array(AsItems(ids))];
            Listed(now, workspace) == ids &&
            forall other :: other != workspace ==> Listed(now, other) == Listed(storage, other)
  {
    IdsOfItems(ids);
    forall other | other != workspace
      ensures Listed(storage[Key(workspace) := Array(AsItems(ids))], other) == Listed(storage, other)
    {
      StoresElsewhere(storage, workspace, Array(AsItems(ids)), other);
    }
  }

  class Browser {
    var storage: map<string, Stored>

    /** The calls that counted, per workspace: those that could store, since the list could last be read. */
    ghost var history: map<string, seq<string>>

    ghost predicate Valid()
      reads this
    {
      forall workspace: string :: Listed(storage, workspace) == First(ByRecency(Past(history, workspace)), MAX)
    }

    constructor ()
      ensures Valid() && storage == map[] && history == map[]
    {
      storage, history := map[], map[];
    }

    method RecentMachines(workspace: string, readable: bool) returns (ids: seq<string>)
      ensures ids == if readable then Listed(storage, workspace) else []
      ensures Valid() && readable ==> ids == First(ByRecency(Past(history, workspace)), MAX)
    {
      if !readable || Key(workspace) !in storage || !storage[Key(workspace)].Array? {
        return [];
      }
      return First(Ids(storage[Key(workspace)].items), MAX);
    }

    /** Storage that cannot be written leaves everything as it was; an unreadable list starts over. */
    method RememberMachine(workspace: string, id: string, readable: bool, writable: bool)
      modifies this
      ensures old(Valid()) ==> Valid()
      ensures !writable ==> storage == old(storage) && history == old(history)
      ensures writable ==> Listed(storage, workspace) == Next(if readable then Listed(old(storage), workspace) else [], id)
      ensures writable ==>
                history == old(history)[workspace := (if readable then Past(old(history), workspace) else []) + [id]]
      ensures forall other :: other != workspace ==> Listed(storage, other) == Listed(old(storage), other)
    {
      var recent := RecentMachines(workspace, readable);
      var next := First([id] + Without(recent, id), MAX);
      if !writable {
        return;
      }
      ghost var past := if readable then Past(history, workspace) else [];
      Stores(storage, workspace, next);
      Recalled(past, id);
      storage := storage[Key(workspace) := Array(AsItems(next))];
      history := history[workspace := past + [id]];
    }
  }
}
