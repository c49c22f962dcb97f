/**
The terminal benchmark reads a program's output in chunks and searches it for
markers. A wait keeps at most the last 8 MiB of what it has read; the bulk loop
moves all but a marker's length aside before it reads on.
*/
module MarkerStream {
  import opened Wrappers

  const CHUNK := 65536
  const LIMIT := 8388608

  // ---- First occurrences ----------------------------------------------------------

  predicate Matches(s: Bytes, marker: Bytes, k: nat) {
    k + |marker| <= |s| && s[k..k + |marker|] == marker
  }

  /** `marker` occurs in `s` at `k` and nowhere before. */
  ghost predicate FirstAt(s: Bytes, marker: Bytes, k: nat) {
    Matches(s, marker, k) && forall j :: 0 <= j < k ==> !Matches(s, marker, j)
  }

  ghost predicate Absent(s: Bytes, marker: Bytes) {
    forall j :: 0 <= j <= |s| ==> !Matches(s, marker, j)
  }

  /** `bytes.find`: the first occurrence. */
  method Find(s: Bytes, marker: Bytes) returns (index: int)
    ensures index >= 0 ==> FirstAt(s, marker, index)
    ensures index < 0 ==> Absent(s, marker)
  {
    index := 0;
    while index + |marker| <= |s|
      invariant 0 <= index && forall j :: 0 <= j < index ==> !Matches(s, marker, j)
    {
      if s[index..index + |marker|] == marker {
        return;
      }
      index := index + 1;
    }
    index := -1;
  }

  lemma FirstAtUnique(s: Bytes, marker: Bytes, j: nat, k: nat)
    requires FirstAt(s, marker, j) && FirstAt(s, marker, k)
    ensures j == k
  {
  }

  lemma MatchesPrefix(s: Bytes, t: Bytes, marker: Bytes, k: nat)
    requires k + |marker| <= |s|
    ensures Matches(s + t, marker, k) <==> Matches(s, marker, k)
  {
    assert (s + t)[k..k + |marker|] == s[k..k + |marker|];
  }

  lemma MatchesSuffix(s: Bytes, t: Bytes, marker: Bytes, k: nat)
    ensures Matches(s + t, marker, |s| + k) <==> Matches(t, marker, k)
  {
    if k + |marker| <= |t| {
      assert (s + t)[|s| + k..|s| + k + |marker|] == t[k..k + |marker|];
    }
  }

  /** More input never changes where the first occurrence is. */
  lemma FirstAtExtends(s: Bytes, t: Bytes, marker: Bytes, k: nat)
    requires FirstAt(s, marker, k)
    ensures FirstAt(s + t, marker, k)
  {
    forall j | 0 <= j <= k ensures Matches(s + t, marker, j) <==> Matches(s, marker, j) {
      MatchesPrefix(s, t, marker, j);
    }
  }

  // ---- Keeping only a tail ------------------------------------------------------------

  /** Counted from the ends, the two have the same `i`-th byte of `tail`. */
  predicate SameAt(all: Bytes, tail: Bytes, i: nat)
    requires i < |tail| <= |all|
  {
    tail[i] == all[|all| - |tail| + i]
  }

  /** `tail` is the end of `all`. */
  ghost predicate EndOf(all: Bytes, tail: Bytes) {
    |tail| <= |all| && forall i :: 0 <= i < |tail| ==> SameAt(all, tail, i)
  }

  lemma EndIs(all: Bytes, tail: Bytes)
    requires EndOf(all, tail)
    ensures tail == all[|all| - |tail|..]
  {
    forall i | 0 <= i < |tail| ensures tail[i] == all[|all| - |tail|..][i] {
      assert SameAt(all, tail, i);
    }
  }

  lemma WholeEnd(all: Bytes, tail: Bytes)
    requires EndOf(all, tail) && |tail| == |all|
    ensures tail == all
  {
    EndIs(all, tail);
  }

  lemma IsEnd(all: Bytes, d: nat)
    requires d <= |all|
    ensures EndOf(all, all[d..])
  {
  }

  lemma EndDrops(all: Bytes, tail: Bytes, d: nat)
    requires EndOf(all, tail) && d <= |tail|
    ensures EndOf(all, tail[d..])
  {
    forall i | 0 <= i < |tail| - d ensures SameAt(all, tail[d..], i) {
      assert SameAt(all, tail, d + i);
    }
  }

  lemma EndAppends(all: Bytes, tail: Bytes, chunk: Bytes)
    requires EndOf(all, tail)
    ensures EndOf(all + chunk, tail + chunk)
  {
    forall i | 0 <= i < |tail + chunk| ensures SameAt(all + chunk, tail + chunk, i) {
      assert i < |tail| ==> SameAt(all, tail, i);
    }
  }

  /** Of two ends of a text, the shorter is an end of the longer. */
  lemma EndWithin(all: Bytes, longer: Bytes, shorter: Bytes)
    requires EndOf(all, longer) && EndOf(all, shorter) && |shorter| <= |longer|
    ensures EndOf(longer, shorter)
  {
    forall i | 0 <= i < |shorter| ensures SameAt(longer, shorter, i) {
      assert SameAt(all, shorter, i) && SameAt(all, longer, |longer| - |shorter| + i);
    }
  }

  /** `pending` is the end of `all`, and what it lacks cannot start an occurrence: `seen`, which had none, reaches far enough. */
  ghost predicate Kept(seen: Bytes, all: Bytes, pending: Bytes, marker: Bytes) {
    EndOf(all, pending) &&
    (pending == all || (seen <= all && Absent(seen, marker) && |all| - |pending| + |marker| <= |seen| + 1))
  }

  /** Nothing starts in a part that was searched and is overlapped by a marker's length less one. */
  lemma NoneStartsBefore(seen: Bytes, all: Bytes, marker: Bytes, j: nat)
    requires seen <= all && Absent(seen, marker) && j + |marker| <= |seen|
    ensures !Matches(all, marker, j)
  {
    assert all == seen + all[|seen|..];
    MatchesPrefix(seen, all[|seen|..], marker, j);
  }

  lemma MatchesInEnd(all: Bytes, d: nat, marker: Bytes, k: nat)
    requires d <= |all|
    ensures Matches(all, marker, d + k) <==> Matches(all[d..], marker, k)
  {
    assert all == all[..d] + all[d..];
    MatchesSuffix(all[..d], all[d..], marker, k);
  }

  lemma KeptMatches(seen: Bytes, all: Bytes, pending: Bytes, marker: Bytes, j: nat)
    requires Kept(seen, all, pending, marker)
    ensures Matches(all, marker, j) <==> j >= |all| - |pending| && Matches(pending, marker, j - (|all| - |pending|))
  {
    var dropped := |all| - |pending|;
    if j < dropped {
      NoneStartsBefore(seen, all, marker, j);
    } else {
      EndIs(all, pending);
      MatchesInEnd(all, dropped, marker, j - dropped);
    }
  }

  /** Searching what was kept finds what searching everything would. */
  lemma KeptDecides(seen: Bytes, all: Bytes, pending: Bytes, marker: Bytes, k: nat)
    requires Kept(seen, all, pending, marker)
    ensures FirstAt(pending, marker, k) ==> FirstAt(all, marker, |all| - |pending| + k)
    ensures Absent(pending, marker) ==> Absent(all, marker)
  {
    forall j: nat ensures Matches(all, marker, j) <==>
        j >= |all| - |pending| && Matches(pending, marker, j - (|all| - |pending|)) {
      KeptMatches(seen, all, pending, marker, j);
    }
  }

  /** The last `LIMIT` bytes. */
  function Trim(s: Bytes): (r: Bytes)
    ensures |r| == if |s| > LIMIT then LIMIT else |s|
  {
    if |s| > LIMIT then s[|s| - LIMIT..] else s
  }

  lemma TrimIsEnd(s: Bytes)
    ensures EndOf(s, Trim(s))
  {
    IsEnd(s, |s| - |Trim(s)|);
  }

  /** Short enough to survive a trim: after any one read, the kept bytes still hold the marker's length less one of the old. */
  predicate Short(marker: Bytes) {
    |marker| + CHUNK <= LIMIT + 1
  }

  /** What a read leaves pending. */
  function AfterRead(pending: Bytes, chunk: Bytes): Bytes {
    if chunk == [] then pending else Trim(pending + chunk)
  }

  lemma DropAppend(s: Bytes, t: Bytes, n: nat)
    requires n <= |s|
    ensures (s + t)[n..] == s[n..] + t
  {
  }

  lemma DropDrop(s: Bytes, m: nat, n: nat)
    requires m + n <= |s|
    ensures s[m..][n..] == s[m + n..]
  {
  }

  lemma EndTrims(all: Bytes, pending: Bytes)
    requires EndOf(all, pending)
    ensures EndOf(all, Trim(pending))
  {
    EndDrops(all, pending, |pending| - |Trim(pending)|);
  }

  lemma KeptAfterRead(seen: Bytes, all: Bytes, pending: Bytes, marker: Bytes, chunk: Bytes)
    requires Kept(seen, all, pending, marker) && Absent(all, marker) && |chunk| <= CHUNK && Short(marker)
    ensures Kept(all, all + chunk, AfterRead(pending, chunk), marker)
  {
    if chunk == [] {
      assert all + chunk == all;
    } else {
      EndAppends(all, pending, chunk);
      EndTrims(all + chunk, pending + chunk);
      if |Trim(pending + chunk)| == |all + chunk| {
        WholeEnd(all + chunk, Trim(pending + chunk));
      }
    }
  }

  lemma KeptFirst(seen: Bytes, all: Bytes, pending: Bytes, marker: Bytes, rest: Bytes, j: nat)
    requires Kept(seen, all, pending, marker) && FirstAt(pending, marker, j)
    ensures FirstAt(all + rest, marker, |all| - |pending| + j)
  {
    KeptDecides(seen, all, pending, marker, j);
    FirstAtExtends(all, rest, marker, |all| - |pending| + j);
  }

  lemma KeptCut(all: Bytes, pending: Bytes, rest: Bytes, n: nat)
    requires EndOf(all, pending) && n <= |pending|
    ensures pending[n..] + rest == (all + rest)[|all| - |pending| + n..]
  {
    EndIs(all, pending);
    DropDrop(all, |all| - |pending|, n);
    DropAppend(all, rest, |all| - |pending| + n);
  }

  /** `after` is `stream` past the marker's first occurrence, at `k`. */
  ghost predicate Passed(stream: Bytes, marker: Bytes, k: nat, after: Bytes) {
    FirstAt(stream, marker, k) && after == stream[k + |marker|..]
  }

  lemma KeptPassed(seen: Bytes, all: Bytes, pending: Bytes, marker: Bytes, rest: Bytes, j: nat, whole: Bytes)
    returns (k: nat)
    requires Kept(seen, all, pending, marker) && FirstAt(pending, marker, j) && whole == all + rest
    ensures Passed(whole, marker, k, pending[j + |marker|..] + rest)
  {
    k := |all| - |pending| + j;
    KeptFirst(seen, all, pending, marker, rest, j);
    KeptCut(all, pending, rest, j + |marker|);
  }

  // ---- What arrives --------------------------------------------------------------------

  /** All the bytes still to come, joined. */
  function Joined(feed: seq<Bytes>): Bytes {
    if feed == [] then [] else feed[0] + Joined(feed[1..])
  }

  lemma {:induction false} JoinedAppend(a: seq<Bytes>, b: seq<Bytes>)
    ensures Joined(a + b) == Joined(a) + Joined(b)
  {
    if a == [] {
      assert a + b == b;
    } else {
      JoinedAppend(a[1..], b);
      assert (a + b)[1..] == a[1..] + b;
      Regroup(a[0], Joined(a[1..]), Joined(b));
    }
  }

  /** What the `t`-th read, counting from nought, finds. */
  function Next(feed: seq<Bytes>, t: nat): Bytes {
    if t < |feed| then feed[t] else []
  }

  /** Everything to search after `t` reads. */
  function Upto(before: Bytes, feed: seq<Bytes>, t: nat): Bytes {
    if t == 0 then before else Upto(before, feed, t - 1) + Next(feed, t - 1)
  }

  /** The reads left after `t`. */
  function Rest(feed: seq<Bytes>, t: nat): seq<Bytes> {
    if t <= |feed| then feed[t..] else []
  }

  lemma RestMore(feed: seq<Bytes>, t: nat)
    ensures Rest(feed, t) == [] ==> Rest(feed, t + 1) == [] && Next(feed, t) == []
    ensures Rest(feed, t) != [] ==> Rest(feed, t)[0] == Next(feed, t) && Rest(feed, t + 1) == Rest(feed, t)[1..]
  {
  }

  lemma RestJoined(feed: seq<Bytes>, t: nat)
    ensures Joined(Rest(feed, t)) == Next(feed, t) + Joined(Rest(feed, t + 1))
  {
    RestMore(feed, t);
  }

  /** Nothing of the stream is lost between what has come and what is to come. */
  lemma {:induction false} UptoRest(before: Bytes, feed: seq<Bytes>, t: nat)
    ensures before + Joined(feed) == Upto(before, feed, t) + Joined(Rest(feed, t))
  {
    if t > 0 {
      UptoRest(before, feed, t - 1);
      RestJoined(feed, t - 1);
      Regroup(Upto(before, feed, t - 1), Next(feed, t - 1), Joined(Rest(feed, t)));
    } else {
      assert feed[0..] == feed;
    }
  }

  /** What is pending after `t` reads. */
  function Held(before: Bytes, feed: seq<Bytes>, t: nat): Bytes {
    if t == 0 then before else AfterRead(Held(before, feed, t - 1), Next(feed, t - 1))
  }

  /** The first `t` looks did not find the marker. */
  ghost predicate Missed(before: Bytes, feed: seq<Bytes>, t: nat, marker: Bytes) {
    t > 0 ==> Missed(before, feed, t - 1, marker) && Absent(Held(before, feed, t - 1), marker)
  }

  /** While nothing is found, everything so far is free of the marker up to the last look, and what is held can still show it. */
  lemma {:induction false} HeldKept(before: Bytes, feed: seq<Bytes>, t: nat, marker: Bytes) returns (seen: Bytes)
    requires Missed(before, feed, t, marker) && Short(marker)
    requires forall i :: 0 <= i < |feed| ==> |feed[i]| <= CHUNK
    ensures Kept(seen, Upto(before, feed, t), Held(before, feed, t), marker)
    ensures t > 0 ==> seen == Upto(before, feed, t - 1) && Absent(seen, marker)
  {
    if t == 0 {
      seen := [];
    } else {
      var earlier := HeldKept(before, feed, t - 1, marker);
      var all, held := Upto(before, feed, t - 1), Held(before, feed, t - 1);
      KeptDecides(earlier, all, held, marker, 0);
      KeptAfterRead(earlier, all, held, marker, Next(feed, t - 1));
      seen := all;
    }
  }

  /** The first look that finds the marker finds its first occurrence in the whole stream. */
  lemma HeldPassed(before: Bytes, feed: seq<Bytes>, t: nat, marker: Bytes, j: nat) returns (k: nat)
    requires Missed(before, feed, t, marker) && Short(marker)
    requires forall i :: 0 <= i < |feed| ==> |feed[i]| <= CHUNK
    requires FirstAt(Held(before, feed, t), marker, j)
    ensures Passed(before + Joined(feed), marker, k, Held(before, feed, t)[j + |marker|..] + Joined(Rest(feed, t)))
  {
    var seen := HeldKept(before, feed, t, marker);
    UptoRest(before, feed, t);
    k := KeptPassed(seen, Upto(before, feed, t), Held(before, feed, t), marker, Joined(Rest(feed, t)), j,
                    before + Joined(feed));
  }

  // ---- Collecting what comes before the end marker ------------------------------------

  /** How much of the pending bytes is moved aside: all but the marker's length less one. */
  function Taken(pending: Bytes, end: Bytes): (take: nat)
    ensures take <= |pending| && (take == 0 || end == [] || |pending| - take + 1 == |end|)
    ensures |pending| - take <= |end|
  {
    var keep := if |end| > 0 then |end| - 1 else 0;
    if |pending| > keep then |pending| - keep else 0
  }

  lemma TakenKept(seen: Bytes, all: Bytes, pending: Bytes, end: Bytes)
    requires Kept(seen, all, pending, end) && Absent(pending, end)
    ensures end != [] && Absent(all, end) && Kept(all, all, pending[Taken(pending, end)..], end)
  {
    assert end == [] ==> Matches(pending, end, 0);
    KeptDecides(seen, all, pending, end, 0);
    EndDrops(all, pending, Taken(pending, end));
  }

  lemma MoveAside(collected: Bytes, pending: Bytes, chunk: Bytes, take: nat)
    requires take <= |pending|
    ensures (collected + pending[..take]) + (pending[take..] + chunk) == (collected + pending) + chunk
  {
    assert pending[..take] + pending[take..] == pending;
  }

  /** One turn that finds nothing: no byte is trimmed away. */
  lemma TurnKept(seen: Bytes, all: Bytes, collected: Bytes, pending: Bytes, end: Bytes, chunk: Bytes)
    requires Kept(seen, all, pending, end) && Absent(pending, end) && collected + pending == all
    requires Short(end) && |chunk| <= CHUNK
    ensures Absent(all, end)
    ensures var take := Taken(pending, end);
            Kept(all, all + chunk, AfterRead(pending[take..], chunk), end) &&
            (collected + pending[..take]) + AfterRead(pending[take..], chunk) == all + chunk
  {
    var take := Taken(pending, end);
    TakenKept(seen, all, pending, end);
    KeptAfterRead(all, all, pending[take..], end, chunk);
    MoveAside(collected, pending, chunk, take);
    assert AfterRead(pending[take..], chunk) == pending[take..] + chunk;
  }

  lemma TakeAppend(s: Bytes, t: Bytes, u: Bytes, n: nat)
    requires n <= |t|
    ensures s + t[..n] == (s + t + u)[..|s| + n]
  {
  }

  lemma DropFirst(s: Bytes, t: Bytes, u: Bytes)
    ensures t + u == (s + t + u)[|s|..]
  {
  }

  /** `collected` is `stream` up to the end marker's first occurrence. */
  ghost predicate Gathered(stream: Bytes, end: Bytes, collected: Bytes) {
    FirstAt(stream, end, |collected|) && collected == stream[..|collected|]
  }

  /** `after` is `stream` from `j` bytes before the end of `collected`. */
  predicate Unread(stream: Bytes, collected: Bytes, j: nat, after: Bytes) {
    j <= |collected| <= |stream| && after == stream[|collected| - j..]
  }

  lemma KeptGathered(seen: Bytes, all: Bytes, collected: Bytes, pending: Bytes, end: Bytes, rest: Bytes, j: nat)
    requires Kept(seen, all, pending, end) && FirstAt(pending, end, j) && collected + pending == all
    ensures Gathered(all + rest, end, collected + pending[..j])
  {
    KeptFirst(seen, all, pending, end, rest, j);
    TakeAppend(collected, pending, rest, j);
  }

  lemma KeptUnread(collected: Bytes, pending: Bytes, rest: Bytes, j: nat)
    requires j <= |pending|
    ensures Unread(collected + pending + rest, collected + pending[..j], j, pending + rest)
  {
    DropFirst(collected, pending, rest);
  }

  /** What is pending after `t` turns of the bulk loop, and what they moved aside. */
  function Tail(before: Bytes, feed: seq<Bytes>, t: nat, end: Bytes): Bytes {
    if t == 0 then before else
      var tail := Tail(before, feed, t - 1, end);
      AfterRead(tail[Taken(tail, end)..], Next(feed, t - 1))
  }

  function Aside(before: Bytes, feed: seq<Bytes>, t: nat, end: Bytes): Bytes {
    if t == 0 then [] else
      var tail := Tail(before, feed, t - 1, end);
      Aside(before, feed, t - 1, end) + tail[..Taken(tail, end)]
  }

  ghost predicate Unended(before: Bytes, feed: seq<Bytes>, t: nat, end: Bytes) {
    t > 0 ==> Unended(before, feed, t - 1, end) && Absent(Tail(before, feed, t - 1, end), end)
  }

  /** While the end marker is not found, moved and pending bytes are everything that came, in order. */
  lemma {:induction false} TailKept(before: Bytes, feed: seq<Bytes>, t: nat, end: Bytes) returns (seen: Bytes)
    requires Unended(before, feed, t, end) && Short(end)
    requires forall i :: 0 <= i < |feed| ==> |feed[i]| <= CHUNK
    ensures Kept(seen, Upto(before, feed, t), Tail(before, feed, t, end), end)
    ensures Aside(before, feed, t, end) + Tail(before, feed, t, end) == Upto(before, feed, t)
    ensures t > 0 ==> seen == Upto(before, feed, t - 1) && Absent(seen, end)
  {
    if t == 0 {
      seen := [];
    } else {
      var earlier := TailKept(before, feed, t - 1, end);
      var collected, pending := Aside(before, feed, t - 1, end), Tail(before, feed, t - 1, end);
      seen := Upto(before, feed, t - 1);
      TurnKept(earlier, seen, collected, pending, end, Next(feed, t - 1));
    }
  }

  lemma TailGathered(before: Bytes, feed: seq<Bytes>, t: nat, end: Bytes, j: nat)
    requires Unended(before, feed, t, end) && Short(end)
    requires forall i :: 0 <= i < |feed| ==> |feed[i]| <= CHUNK
    requires FirstAt(Tail(before, feed, t, end), end, j)
    ensures var collected := Aside(before, feed, t, end) + Tail(before, feed, t, end)[..j];
            Gathered(before + Joined(feed), end, collected) &&
            Unread(before + Joined(feed), collected, j, Tail(before, feed, t, end) + Joined(Rest(feed, t)))
  {
    var seen := TailKept(before, feed, t, end);
    KeptGathered(seen, Upto(before, feed, t), Aside(before, feed, t, end), Tail(before, feed, t, end), end,
                 Joined(Rest(feed, t)), j);
    KeptUnread(Aside(before, feed, t, end), Tail(before, feed, t, end), Joined(Rest(feed, t)), j);
    UptoRest(before, feed, t);
  }

  lemma NothingLost(before: Bytes, feed: seq<Bytes>, t: nat, end: Bytes)
    requires Unended(before, feed, t, end) && Short(end)
    requires forall i :: 0 <= i < |feed| ==> |feed[i]| <= CHUNK
    ensures Aside(before, feed, t, end) + (Tail(before, feed, t, end) + Joined(Rest(feed, t))) == before + Joined(feed)
    ensures t > 0 ==> Absent(Upto(before, feed, t - 1), end)
  {
    var _ := TailKept(before, feed, t, end);
    UptoRest(before, feed, t);
    Regroup(Aside(before, feed, t, end), Tail(before, feed, t, end), Joined(Rest(feed, t)));
  }

  // ---- The session --------------------------------------------------------------------

  /** The look that ended the wait, where it found the marker, and the same for the collecting. */
  datatype Work = Work(looks: nat, j: nat, turns: nat, i: nat)

  class Session {
    var pending: Bytes

    /** What each further read will find; nothing when it times out or the program has closed the terminal. */
    var feed: seq<Bytes>

    /** A read returns at most a chunk. */
    predicate Valid()
      reads this
    {
      forall i :: 0 <= i < |feed| ==> |feed[i]| <= CHUNK
    }

    /** Everything the session has or will have to search. */
    function Stream(): Bytes
      reads this
    {
      pending + Joined(feed)
    }

    constructor (feed: seq<Bytes>)
      requires forall i :: 0 <= i < |feed| ==> |feed[i]| <= CHUNK
      ensures Valid() && pending == [] && this.feed == feed
    {
      this.feed := feed;
      pending := [];
    }

    /** Appends what the next read finds and forgets the oldest bytes over the limit. */
    method ReadOnce() returns (chunk: Bytes)
      requires Valid()
      modifies this
      ensures Valid() && |chunk| <= CHUNK
      ensures if old(feed) == [] then chunk == [] && feed == [] else chunk == old(feed)[0] && feed == old(feed)[1..]
      ensures pending == AfterRead(old(pending), chunk)
    {
      if feed == [] {
        return [];
      }
      chunk := feed[0];
      feed := feed[1..];
      if chunk == [] {
        return;
      }
      pending := pending + chunk;
      if |pending| > LIMIT {
        pending := pending[|pending| - LIMIT..];
      }
    }

    /** Moves past the marker's first occurrence in what is kept. */
    method Consume(marker: Bytes) returns (found: bool, ghost k: nat)
      modifies `pending
      ensures found ==> FirstAt(old(pending), marker, k) && pending == old(pending)[k + |marker|..]
      ensures !found ==> pending == old(pending) && Absent(pending, marker)
    {
      k := 0;
      var index := Find(pending, marker);
      if index < 0 {
        return false, k;
      }
      k := index;
      pending := pending[index + |marker|..];
      return true, k;
    }

    /**
    Reads until the marker arrives. However the input is cut into chunks, and
    whatever was trimmed on the way, the session moves past the marker's first
    occurrence in the whole stream; it gives up only when the marker had not
    arrived by the last look.
    */
    method WaitMarker(marker: Bytes, ticks: nat) returns (found: bool, ghost k: nat, ghost looks: nat, ghost j: nat)
      requires Valid()
      modifies this
      ensures Valid() && feed == old(Rest(feed, looks)) && old(Missed(pending, feed, looks, marker))
      ensures found ==> looks < ticks && old(FirstAt(Held(pending, feed, looks), marker, j))
      ensures found ==> pending == old(Held(pending, feed, looks))[j + |marker|..]
      ensures !found ==> looks == ticks && pending == old(Held(pending, feed, looks))
      ensures found && Short(marker) ==> Passed(old(Stream()), marker, k, Stream())
      ensures !found && 0 < ticks && Short(marker) ==> Absent(old(Upto(pending, feed, ticks - 1)), marker)
    {
      k, looks, j := 0, 0, 0;
      ghost var before, feed0 := pending, feed;
      var t := 0;
      while t < ticks
        invariant Valid() && 0 <= t <= ticks && feed == Rest(feed0, t)
        invariant pending == Held(before, feed0, t) && Missed(before, feed0, t, marker)
      {
        looks := t;
        found, j := Consume(marker);
        if found {
          if Short(marker) {
            k := HeldPassed(before, feed0, t, marker, j);
          }
          return;
        }
        RestMore(feed0, t);
        var _ := ReadOnce();
        t := t + 1;
      }
      if Short(marker) {
        var _ := HeldKept(before, feed0, t, marker);
      }
      return false, k, t, j;
    }

    /**
    Reads until the end marker arrives, moving bytes aside on the way. What it
    returns is the whole stream up to the marker's first occurrence, and at
    every exit no byte has been trimmed away.
    */
    method Collect(end: Bytes, ticks: nat) returns (found: bool, collected: Bytes, ghost looks: nat, ghost j: nat)
      requires Valid()
      modifies this
      ensures Valid() && feed == old(Rest(feed, looks)) && old(Unended(pending, feed, looks, end))
      ensures pending == old(Tail(pending, feed, looks, end)) && (found ==> looks < ticks && FirstAt(pending, end, j))
      ensures collected == old(Aside(pending, feed, looks, end)) + if found then pending[..j] else []
      ensures !found ==> looks == ticks
      ensures found && Short(end) ==>
                Gathered(old(Stream()), end, collected) &&
                FirstAt(pending, end, j) && Unread(old(Stream()), collected, j, Stream())
      ensures !found && Short(end) ==> collected + Stream() == old(Stream())
      ensures !found && 0 < ticks && Short(end) ==> Absent(old(Upto(pending, feed, ticks - 1)), end)
    {
      looks, j := 0, 0;
      collected := [];
      ghost var before, feed0 := pending, feed;
      var t := 0;
      while t < ticks
        invariant Valid() && 0 <= t <= ticks && feed == Rest(feed0, t)
        invariant collected == Aside(before, feed0, t, end) && pending == Tail(before, feed0, t, end)
        invariant Unended(before, feed0, t, end)
      {
        var index := Find(pending, end);
        if index >= 0 {
          if Short(end) {
            TailGathered(before, feed0, t, end, index);
          }
          collected, j := collected + pending[..index], index;
          return true, collected, t, j;
        }
        var take := Taken(pending, end);
        collected, pending := collected + pending[..take], pending[take..];
        RestMore(feed0, t);
        var _ := ReadOnce();
        t := t + 1;
      }
      if Short(end) {
        NothingLost(before, feed0, t, end);
      }
      return false, collected, t, j;
    }

    /**
    The bulk transfer: what lies between the first begin marker and the first
    end marker after it, or everything after the begin marker that came. For
    markers of any length, the look that found the begin marker and the turn
    that ended the collecting say what was returned.
    */
    method Bulk(begin: Bytes, end: Bytes, ticks: nat)
      returns (begun: bool, found: bool, collected: Bytes, ghost b: nat, ghost w: Work)
      requires Valid()
      modifies this
      ensures Valid() && (found ==> begun) && old(Missed(pending, feed, w.looks, begin))
      ensures if begun then w.looks < ticks && old(FirstAt(Held(pending, feed, w.looks), begin, w.j))
              else w.looks == ticks && pending == old(Held(pending, feed, ticks)) && collected == []
      ensures begun ==> var start := old(Held(pending, feed, w.looks))[w.j + |begin|..]; var more := old(Rest(feed, w.looks));
                Unended(start, more, w.turns, end) && pending == Tail(start, more, w.turns, end) &&
                (if found then w.turns < ticks && FirstAt(pending, end, w.i) else w.turns == ticks) &&
                collected == Aside(start, more, w.turns, end) + if found then pending[..w.i] else []
      ensures begun && Short(begin) ==> FirstAt(old(Stream()), begin, b)
      ensures begun && Short(begin) && Short(end) ==>
                if found then Gathered(old(Stream())[b + |begin|..], end, collected)
                else collected + Stream() == old(Stream())[b + |begin|..]
      ensures !begun && 0 < ticks && Short(begin) ==> Absent(old(Upto(pending, feed, ticks - 1)), begin)
    {
      found, collected := false, [];
      ghost var looks, j, turns, i;
      begun, b, looks, j := WaitMarker(begin, ticks);
      turns, i := 0, 0;
      if begun {
        found, collected, turns, i := Collect(end, ticks);
      }
      w := Work(looks, j, turns, i);
    }
  }

  // ---- Longer markers can be missed ----------------------------------------------------

  /** A text in chunks. */
  function Cut(s: Bytes): seq<Bytes> {
    if |s| <= CHUNK then [s] else [s[..CHUNK]] + Cut(s[CHUNK..])
  }

  /** The chunk in which the marker completes, and more bytes that are not its last. */
  function LastChunk(marker: Bytes): (chunk: Bytes)
    requires marker != []
    ensures |chunk| == CHUNK && chunk[0] == marker[|marker| - 1]
    ensures forall i :: 0 < i < CHUNK ==> chunk[i] != marker[|marker| - 1]
  {
    var last := marker[|marker| - 1];
    [last] + seq(CHUNK - 1, _ => if last == 0 then 1 else 0)
  }

  /** A feed that brings the marker, all but its last byte first. */
  function LosingFeed(marker: Bytes): seq<Bytes>
    requires marker != []
  {
    Cut(marker[..|marker| - 1]) + [LastChunk(marker)]
  }

  lemma {:induction false} CutJoins(s: Bytes)
    ensures Joined(Cut(s)) == s && forall i :: 0 <= i < |Cut(s)| ==> |Cut(s)[i]| <= CHUNK
  {
    if |s| <= CHUNK {
      assert Joined([s][1..]) == [];
    } else {
      CutJoins(s[CHUNK..]);
      assert Cut(s)[1..] == Cut(s[CHUNK..]);
    }
  }

  lemma LosingFeedJoins(marker: Bytes)
    requires marker != []
    ensures Joined(LosingFeed(marker)) == marker[..|marker| - 1] + LastChunk(marker)
    ensures forall i :: 0 <= i < |LosingFeed(marker)| ==> |LosingFeed(marker)[i]| <= CHUNK
  {
    var cut, feed := Cut(marker[..|marker| - 1]), LosingFeed(marker);
    CutJoins(marker[..|marker| - 1]);
    JoinedAppend(cut, [LastChunk(marker)]);
    assert Joined([LastChunk(marker)]) == LastChunk(marker) + Joined([LastChunk(marker)][1..]);
  }

  lemma TrimTwice(s: Bytes, chunk: Bytes)
    ensures Trim(Trim(s) + chunk) == Trim(s + chunk)
  {
    TrimIsEnd(s);
    EndAppends(s, Trim(s), chunk);
    EndTrims(s + chunk, Trim(s) + chunk);
    TrimIsEnd(s + chunk);
    EndWithin(s + chunk, Trim(s + chunk), Trim(Trim(s) + chunk));
    WholeEnd(Trim(s + chunk), Trim(Trim(s) + chunk));
  }

  /** From nothing, what is held is the end of all that came. */
  lemma {:induction false} HeldIsTrim(feed: seq<Bytes>, t: nat)
    ensures Held([], feed, t) == Trim(Upto([], feed, t))
  {
    if t == 0 {
    } else {
      HeldIsTrim(feed, t - 1);
      if Next(feed, t - 1) == [] {
        assert Upto([], feed, t - 1) + [] == Upto([], feed, t - 1);
      } else {
        TrimTwice(Upto([], feed, t - 1), Next(feed, t - 1));
      }
    }
  }

  lemma SuffixAbsent(s: Bytes, d: nat, marker: Bytes)
    requires Absent(s, marker) && d <= |s|
    ensures Absent(s[d..], marker)
  {
    assert s == s[..d] + s[d..];
    forall j | 0 <= j <= |s[d..]| ensures !Matches(s[d..], marker, j) {
      MatchesSuffix(s[..d], s[d..], marker, j);
    }
  }

  lemma EndAfterRead(s: Bytes, tail: Bytes, take: nat, chunk: Bytes)
    requires EndOf(s, tail) && |tail| <= LIMIT && take <= |tail|
    ensures EndOf(s + chunk, AfterRead(tail[take..], chunk)) && |AfterRead(tail[take..], chunk)| <= LIMIT
  {
    EndDrops(s, tail, take);
    if chunk == [] {
      assert s + chunk == s;
    } else {
      EndAppends(s, tail[take..], chunk);
      EndTrims(s + chunk, tail[take..] + chunk);
    }
  }

  lemma {:induction false} TailIsEnd(feed: seq<Bytes>, t: nat, end: Bytes)
    ensures EndOf(Upto([], feed, t), Tail([], feed, t, end)) && |Tail([], feed, t, end)| <= LIMIT
  {
    if t == 0 {
    } else {
      TailIsEnd(feed, t - 1, end);
      var tail := Tail([], feed, t - 1, end);
      EndAfterRead(Upto([], feed, t - 1), tail, Taken(tail, end), Next(feed, t - 1));
    }
  }

  lemma TrimmedAway(marker: Bytes)
    requires !Short(marker)
    ensures Absent(Trim(marker[..|marker| - 1] + LastChunk(marker)), marker)
  {
    var n, chunk := |marker|, LastChunk(marker);
    var all := marker[..n - 1] + chunk;
    var kept := Trim(all);
    TrimIsEnd(all);
    EndIs(all, kept);
    forall j | 0 <= j <= |kept| ensures !Matches(kept, marker, j) {
      if j + n <= |kept| {
        var at := |all| - |kept| + j;
        assert kept[j + n - 1] == all[at + n - 1] == chunk[at];
        assert kept[j..j + n][n - 1] == kept[j + n - 1];
      }
    }
  }

  lemma {:induction false} LastRemains(feed: seq<Bytes>, last: Bytes, t: nat)
    requires t <= |feed|
    ensures |Joined(Rest(feed + [last], t))| >= |last|
  {
    JoinedAppend(feed[t..], [last]);
    assert Rest(feed + [last], t) == feed[t..] + [last];
    assert Joined([last]) == last + Joined([last][1..]);
  }

  lemma ShortPrefixes(marker: Bytes, t: nat)
    requires marker != [] && t < |LosingFeed(marker)|
    ensures |Upto([], LosingFeed(marker), t)| < |marker|
  {
    LosingFeedJoins(marker);
    UptoRest([], LosingFeed(marker), t);
    LastRemains(Cut(marker[..|marker| - 1]), LastChunk(marker), t);
    assert |[] + Joined(LosingFeed(marker))| == |marker| - 1 + CHUNK;
  }

  lemma AbsentInShorter(s: Bytes, marker: Bytes)
    requires |s| < |marker|
    ensures Absent(s, marker)
  {
  }

  /** No look at the feed's last bytes finds it, early or late. */
  lemma EndsWithoutMarker(marker: Bytes, t: nat)
    requires !Short(marker)
    ensures Absent(Trim(Upto([], LosingFeed(marker), t)), marker)
  {
    var feed := LosingFeed(marker);
    if t < |feed| {
      ShortPrefixes(marker, t);
      AbsentInShorter(Trim(Upto([], feed, t)), marker);
    } else {
      LosingFeedJoins(marker);
      UptoRest([], feed, t);
      assert Rest(feed, t) == [] && Upto([], feed, t) + [] == Upto([], feed, t) && [] + Joined(feed) == Joined(feed);
      TrimmedAway(marker);
    }
  }

  lemma LosingFeedBrings(marker: Bytes)
    requires marker != []
    ensures Matches(Joined(LosingFeed(marker)), marker, 0)
  {
    var n := |marker|;
    LosingFeedJoins(marker);
    assert (marker[..n - 1] + LastChunk(marker))[..n] == marker;
  }

  lemma TailWithout(s: Bytes, tail: Bytes, marker: Bytes)
    requires EndOf(s, tail) && |tail| <= LIMIT && Absent(Trim(s), marker)
    ensures Absent(tail, marker)
  {
    TrimIsEnd(s);
    EndWithin(s, Trim(s), tail);
    EndIs(Trim(s), tail);
    SuffixAbsent(Trim(s), |Trim(s)| - |tail|, marker);
  }

  /** A marker that is not short is brought whole by a feed on which no look, however late, ever finds it. */
  lemma LongMarkerIsLost(marker: Bytes, t: nat)
    requires !Short(marker)
    ensures Matches(Joined(LosingFeed(marker)), marker, 0)
    ensures Absent(Held([], LosingFeed(marker), t), marker) && Absent(Tail([], LosingFeed(marker), t, marker), marker)
  {
    var feed := LosingFeed(marker);
    LosingFeedBrings(marker);
    EndsWithoutMarker(marker, t);
    HeldIsTrim(feed, t);
    TailIsEnd(feed, t, marker);
    TailWithout(Upto([], feed, t), Tail([], feed, t, marker), marker);
  }

  /** So both loops miss it there. */
  method MissesLong(marker: Bytes, ticks: nat) returns (waited: bool, collected: bool)
    requires !Short(marker)
    ensures !waited && !collected
  {
    LosingFeedJoins(marker);
    var s := new Session(LosingFeed(marker));
    ghost var k, looks, j;
    waited, k, looks, j := s.WaitMarker(marker, ticks);
    LongMarkerIsLost(marker, looks);
    var r := new Session(LosingFeed(marker));
    var bytes;
    collected, bytes, looks, j := r.Collect(marker, ticks);
    LongMarkerIsLost(marker, looks);
  }

  /** Two ways of cutting the same stream give the same bytes. */
  lemma ChunkingIsInvisible(stream: Bytes, begin: Bytes, end: Bytes, b: nat, collected: Bytes, b': nat, collected': Bytes)
    requires FirstAt(stream, begin, b) && FirstAt(stream, begin, b')
    requires Gathered(stream[b + |begin|..], end, collected) && Gathered(stream[b' + |begin|..], end, collected')
    ensures collected == collected'
  {
    FirstAtUnique(stream, begin, b, b');
    FirstAtUnique(stream[b + |begin|..], end, |collected|, |collected'|);
  }
}
