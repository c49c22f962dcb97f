/**
Cursor-paged lists in the browser: the start cursor of each page is remembered
while paging forward. Calls share the remembered lists and interleave at their
awaits; `Pager` takes them step by step, from one await to the next.
*/
module CursorPages {
  type Key = string

  /** A page as the server sends it; an empty `next` means it is the last. */
  datatype Page = Page(items: seq<string>, next: string, total: int)

  /** A server whose pages do not change: what it answers to a path, its filters and a cursor. */
  type Server = (Key, string) -> Page

  // ---- The plain walk -------------------------------------------------------------

  /** The cursor that starts page `n`, counted from zero, following the server from its first page. */
  ghost function Cursor(server: Server, key: Key, n: nat): string {
    if n == 0 then "" else server(key, Cursor(server, key, n - 1)).next
  }

  /** There is a page `n`. */
  ghost predicate Reached(server: Server, key: Key, n: nat) {
    n == 0 || (Reached(server, key, n - 1) && Cursor(server, key, n) != "")
  }

  /** `page` is a number as the program has it: not always whole or positive. */
  datatype Result = Result(items: seq<string>, total: int, page: real)

  /** Walking forward page by page from page `at`: page number `page`, or the last one when there are fewer. */
  ghost function Walk(server: Server, key: Key, page: nat, at: nat): Result
    decreases if at < page then page - at else 0
  {
    var r := server(key, Cursor(server, key, at));
    if at + 1 >= page || r.next == "" then Result(r.items, r.total, (at + 1) as real) else Walk(server, key, page, at + 1)
  }

  /** The walk from the start goes through every page there is, up to the one asked for. */
  lemma {:induction false} WalkFrom(server: Server, key: Key, page: nat, at: nat)
    requires Reached(server, key, at) && at < page
    ensures Walk(server, key, page, 0) == Walk(server, key, page, at)
  {
    if at > 0 {
      WalkFrom(server, key, page, at - 1);
    }
  }

  /** `n` is the page asked for, or the last when there are fewer, and `w` shows it. */
  ghost predicate Shows(server: Server, key: Key, page: nat, w: Result, n: nat) {
    1 <= n <= page && w.page == n as real && Reached(server, key, n - 1) && (n == page || !Reached(server, key, n)) &&
    var r := server(key, Cursor(server, key, n - 1)); w.items == r.items && w.total == r.total
  }

  /** What the walk finds: the page asked for, or the last when there are fewer. */
  lemma {:induction false} WalkFinds(server: Server, key: Key, page: nat, at: nat) returns (n: nat)
    requires Reached(server, key, at) && at < page
    ensures Shows(server, key, page, Walk(server, key, page, at), n)
    decreases page - at
  {
    if at + 1 < page && server(key, Cursor(server, key, at)).next != "" {
      n := WalkFinds(server, key, page, at + 1);
    } else {
      n := at + 1;
    }
  }

  // ---- Numbers and array indices --------------------------------------------------------

  /** A number that names an element of an array, rather than some other property of it. */
  predicate Index(k: real) {
    k >= 0.0 && k.Floor as real == k
  }

  function Ceiling(k: real): int {
    -((-k).Floor)
  }

  function Least(page: real, known: nat): real {
    if page <= known as real then page else known as real
  }

  /** The call starts at a page it knows: it asks for a whole page from one up, or past the known ones. */
  predicate Straight(page: real, known: nat) {
    page > known as real || (page >= 1.0 && Index(page))
  }

  lemma StraightStarts(page: real, known: nat)
    requires known >= 1
    ensures Straight(page, known) ==> Ceiling(page) >= 1 && Index(Least(page, known) - 1.0)
    ensures Straight(page, known) ==>
              (Least(page, known) - 1.0).Floor < known && (Least(page, known) - 1.0).Floor < Ceiling(page)
    ensures !Straight(page, known) ==> Least(page, known) == page && (Index(page) ==> page == 0.0) && !Index(page - 1.0)
  {
  }

  // ---- Shared lists and calls -------------------------------------------------------------

  /** The cursor of some page there is. */
  ghost predicate OnChain(server: Server, key: Key, cursor: string) {
    exists n: nat :: Reached(server, key, n) && cursor == Cursor(server, key, n)
  }

  lemma NextOnChain(server: Server, key: Key, cursor: string)
    requires OnChain(server, key, cursor)
    ensures server(key, cursor).next != "" ==> OnChain(server, key, server(key, cursor).next)
    ensures OnChain(server, key, "")
  {
    var n: nat :| Reached(server, key, n) && cursor == Cursor(server, key, n);
    assert server(key, cursor).next != "" ==>
      Reached(server, key, n + 1) && server(key, cursor).next == Cursor(server, key, n + 1);
    assert Reached(server, key, 0) && Cursor(server, key, 0) == "";
  }

  /** The cursor is the true one of page `at`. */
  ghost predicate Starts(server: Server, key: Key, at: real, cursor: string) {
    Index(at) && Reached(server, key, at.Floor) && cursor == Cursor(server, key, at.Floor)
  }

  /** The start cursors learned for one key, shared by every call that took the list: an array, and what was set on it beside its elements. */
  class Known {
    ghost const key: Key

    var cursors: seq<string>
    var others: map<real, string>

    constructor (key: Key)
      ensures this.key == key && cursors == [""] && others == map[]
    {
      this.key := key;
      cursors, others := [""], map[];
    }

    /** `known[k]`, undefined reading as no cursor. */
    function At(k: real): string
      reads this
    {
      if Index(k) && k.Floor < |cursors| then cursors[k.Floor] else if k in others then others[k] else ""
    }

    /** Only true cursors are stored. */
    ghost predicate Chained(server: Server)
      reads this
    {
      |cursors| >= 1 && (forall n :: 0 <= n < |cursors| ==> OnChain(server, key, cursors[n])) &&
      forall k :: k in others ==> OnChain(server, key, others[k])
    }

    /** A prefix of the true chain of cursors, without holes. */
    ghost predicate Prefix(server: Server)
      reads this
    {
      |cursors| >= 1 &&
      forall n :: 0 <= n < |cursors| ==> cursors[n] == Cursor(server, key, n) && Reached(server, key, n)
    }

    /** `known[k] = next`. */
    method Put(k: real, next: string)
      requires Index(k) ==> k.Floor <= |cursors|
      modifies this
      ensures !Index(k) ==> cursors == old(cursors) && others == old(others)[k := next]
      ensures Index(k) ==> others == old(others)
      ensures Index(k) && k.Floor < |old(cursors)| ==> cursors == old(cursors)[k.Floor := next]
      ensures Index(k) && k.Floor == |old(cursors)| ==> cursors == old(cursors) + [next]
    {
      if !Index(k) {
        others := others[k := next];
      } else if k.Floor < |cursors| {
        cursors := cursors[k.Floor := next];
      } else {
        cursors := cursors + [next];
      }
    }

    /** `known[at + 1] = next`, where `next` follows a true cursor. */
    method Learn(server: Server, at: real, ghost cursor: string, next: string)
      requires Chained(server) && OnChain(server, key, cursor) && next == server(key, cursor).next != ""
      requires at + 1.0 <= |cursors| as real
      modifies this
      ensures Chained(server) && |old(cursors)| <= |cursors| && At(at + 1.0) == next
      ensures Index(at + 1.0) ==> (at + 1.0).Floor < |cursors| && others == old(others)
      ensures old(Prefix(server)) && (!Index(at + 1.0) || Starts(server, key, at, cursor)) ==> Prefix(server)
      ensures at + 1.0 == 0.0 ==> cursors[0] == next
    {
      NextOnChain(server, key, cursor);
      Put(at + 1.0, next);
    }
  }

  predicate ServedBy(page: Page, result: Result) {
    result.items == page.items && result.total == page.total
  }

  datatype Progress = Waiting | Returned(result: Result) | Rejected

  lemma WalkGoes(server: Server, key: Key, page: real, at: real, cursor: string)
    requires server(key, cursor).next != "" && at + 1.0 < page
    ensures Index(at) ==> Index(at + 1.0) && (at + 1.0).Floor == at.Floor + 1 && at.Floor + 1 < Ceiling(page)
    ensures Starts(server, key, at, cursor) ==> Starts(server, key, at + 1.0, server(key, cursor).next)
  {
  }

  /** A walk that has come to its page, or to the last, has found what the plain walk finds. */
  lemma WalkEnds(server: Server, key: Key, page: real, at: real, cursor: string)
    requires Starts(server, key, at, cursor) && at.Floor < Ceiling(page)
    requires at + 1.0 >= page || server(key, cursor).next == ""
    ensures var r := server(key, cursor); Walk(server, key, Ceiling(page), 0) == Result(r.items, r.total, at + 1.0)
  {
    WalkFrom(server, key, Ceiling(page), at.Floor);
  }

  /** One call of `cursorPage`, stopped at its await or ended. */
  class Call {
    const key: Key
    const page: real
    const known: Known

    var at: real

    /** The cursor of the request in flight. */
    var cursor: string

    var progress: Progress

    /** The call began at a page of a true list. */
    ghost const straight: bool

    /** The call began beside the list. */
    ghost const beside: bool

    /** The cursor of its first request. */
    ghost const asked: string

    /** The request in flight is for a true page: the next one of the walk, or the only one of a call beside the list. */
    ghost predicate Asks(server: Server, length: nat)
      reads this
    {
      OnChain(server, key, cursor) && at + 1.0 <= length as real &&
      (straight ==> Starts(server, key, at, cursor) && at.Floor < Ceiling(page)) &&
      if beside then at + 1.0 == page && cursor == asked else Index(at)
    }

    /** What the call may return: what the plain walk returns, or beside the list the page of the one request, under the number asked for. */
    ghost predicate Answers(server: Server, result: Result)
      reads this
    {
      (straight ==> Ceiling(page) >= 1 && result == Walk(server, key, Ceiling(page), 0)) &&
      (beside ==> result.page == page && ServedBy(server(key, asked), result)) &&
      exists cursor :: OnChain(server, key, cursor) && ServedBy(server(key, cursor), result)
    }

    ghost predicate Valid(server: Server)
      reads this, known
    {
      known.key == key && known.Chained(server) && !(straight && beside) &&
      (straight ==> Ceiling(page) >= 1) && (beside ==> Index(page) ==> page == 0.0) &&
      (progress.Waiting? ==> Asks(server, |known.cursors|)) &&
      (progress.Returned? ==> Answers(server, progress.result))
    }

    constructor (key: Key, page: real, known: Known, ghost server: Server)
      requires known.key == key && known.Chained(server)
      ensures this.key == key && this.page == page && this.known == known && Valid(server) && progress == Waiting
      ensures at == Least(page, |known.cursors|) - 1.0 && cursor == asked == known.At(at)
      ensures straight == (Straight(page, |known.cursors|) && known.Prefix(server))
      ensures beside == !Straight(page, |known.cursors|)
    {
      this.key, this.page, this.known := key, page, known;
      at := Least(page, |known.cursors|) - 1.0;
      cursor, asked := known.At(Least(page, |known.cursors|) - 1.0), known.At(Least(page, |known.cursors|) - 1.0);
      progress := Waiting;
      straight := Straight(page, |known.cursors|) && known.Prefix(server);
      beside := !Straight(page, |known.cursors|);
      StraightStarts(page, |known.cursors|);
      NextOnChain(server, key, known.cursors[0]);
    }

    /** Writing beside the list, or the true next cursor in it, leaves a true list true. */
    ghost predicate Harmless()
      reads this
    {
      straight || (beside && page != 0.0)
    }

    /** The reply's next cursor is stored. */
    method Note(server: Server, r: Page)
      requires Valid(server) && progress.Waiting? && r == server(key, cursor)
      modifies known
      ensures Valid(server) && |old(known.cursors)| <= |known.cursors|
      ensures old(known.Prefix(server)) && Harmless() ==> known.Prefix(server)
      ensures beside && page == 0.0 && server(key, asked).next != "" ==> !known.Prefix(server)
      ensures r.next != "" ==> known.At(at + 1.0) == r.next
      ensures r.next != "" && Index(at + 1.0) ==> (at + 1.0).Floor < |known.cursors| && known.others == old(known.others)
    {
      if r.next != "" {
        known.Learn(server, at, cursor, r.next);
      }
    }

    /** After the reply is noted: the call returns, or its next request goes out. */
    method Proceed(server: Server, r: Page)
      requires Valid(server) && progress.Waiting? && r == server(key, cursor)
      requires r.next != "" ==> known.At(at + 1.0) == r.next
      requires r.next != "" && Index(at + 1.0) ==> (at + 1.0).Floor < |known.cursors|
      modifies this
      ensures Valid(server) && !progress.Rejected?
      ensures progress.Waiting? ==> at == old(at) + 1.0
      ensures progress.Returned? ==> progress.result.page == old(at) + 1.0 && ServedBy(r, progress.result)
      ensures old(at) + 1.0 >= page || r.next == "" ==> progress.Returned?
    {
      if at + 1.0 >= page || r.next == "" {
        if straight {
          WalkEnds(server, key, page, at, cursor);
        }
        progress := Returned(Result(r.items, r.total, at + 1.0));
      } else {
        NextOnChain(server, key, cursor);
        WalkGoes(server, key, page, at, cursor);
        at := at + 1.0;
        cursor := known.At(at);
      }
    }

    /** From one await to the next, or to the end. */
    method Step(server: Server)
      requires Valid(server) && progress.Waiting?
      modifies this, known
      ensures Valid(server) && |old(known.cursors)| <= |known.cursors| && !progress.Rejected?
      ensures progress.Waiting? ==> at == old(at) + 1.0
      ensures progress.Returned? ==> progress.result.page == old(at) + 1.0 && ServedBy(server(key, old(cursor)), progress.result)
      ensures old(at) + 1.0 >= page || server(key, old(cursor)).next == "" ==> progress.Returned?
      ensures old(known.Prefix(server)) && Harmless() ==> known.Prefix(server)
      ensures beside && page == 0.0 && server(key, asked).next != "" ==> !known.Prefix(server)
      ensures server(key, old(cursor)).next != "" ==> known.At(old(at) + 1.0) == server(key, old(cursor)).next
      ensures server(key, old(cursor)).next != "" && Index(old(at) + 1.0) ==>
        (old(at) + 1.0).Floor < |known.cursors| && known.others == old(known.others)
    {
      var r := server(key, cursor);
      Note(server, r);
      Proceed(server, r);
    }
  }

  lemma FirstOnChain(server: Server, key: Key)
    ensures OnChain(server, key, "")
  {
    assert Reached(server, key, 0) && Cursor(server, key, 0) == "";
  }

  class Pager {
    const server: Server

    var starts: map<Key, Known>

    /** Every call ever made, in order. */
    var calls: seq<Call>

    ghost var Repr: set<object>

    ghost predicate Valid()
      reads this, Repr
    {
      this in Repr &&
      (forall k :: k in starts ==> starts[k] in Repr && starts[k].key == k && starts[k].Chained(server)) &&
      (forall c :: c in calls ==> c in Repr && c.known in Repr && c.Valid(server)) &&
      (forall i, j :: 0 <= i < j < |calls| ==> calls[i] != calls[j])
    }

    constructor (server: Server)
      ensures Valid() && fresh(Repr) && this.server == server && calls == [] && starts == map[]
    {
      this.server := server;
      starts, calls := map[], [];
      Repr := {this};
    }

    /** Every list is a prefix of its true chain, and no call can change that. */
    ghost predicate Clean()
      requires Valid()
      reads this, Repr
    {
      (forall k :: k in starts ==> starts[k].Prefix(server)) &&
      forall c :: c in calls ==> c.known.Prefix(server) && c.Harmless()
    }

    /** The list remembered for a key, or a new one. */
    method Take(key: Key) returns (known: Known)
      requires Valid()
      ensures known.key == key && known.Chained(server)
      ensures if key in starts then known == starts[key] else fresh(known) && known.cursors == [""] && known.Prefix(server)
    {
      if key in starts {
        return starts[key];
      }
      FirstOnChain(server, key);
      known := new Known(key);
    }

    method Enter(c: Call)
      requires Valid() && c !in Repr && c.Valid(server)
      modifies this
      ensures Valid() && Repr == old(Repr) + {c, c.known} && calls == old(calls) + [c] && starts == old(starts)
      ensures old(Clean()) && c.known.Prefix(server) && c.Harmless() ==> Clean()
    {
      calls := calls + [c];
      Repr := Repr + {c, c.known};
    }

    /** A call up to its first await: it shares the remembered list, or starts one of its own. */
    method Begin(key: Key, page: real) returns (c: Call)
      requires Valid()
      modifies Repr
      ensures Valid() && fresh(Repr - old(Repr)) && starts == old(starts)
      ensures fresh(c) && calls == old(calls) + [c] && c.key == key && c.page == page && c.progress.Waiting?
      ensures if key in starts then c.known == starts[key] else fresh(c.known) && c.known.cursors == [""]
      ensures c.at == Least(page, |c.known.cursors|) - 1.0 && c.cursor == c.asked == c.known.At(c.at)
      ensures c.beside == !Straight(page, |c.known.cursors|) && (c.straight <==> !c.beside && c.known.Prefix(server))
      ensures old(Clean()) && page != 0.0 ==> Clean()
    {
      var known := Take(key);
      c := new Call(key, page, known, server);
      Enter(c);
    }

    /**
    The reply to a call's request arrives. The list is remembered for the key
    even when another call has remembered its own meanwhile.
    */
    method Resume(i: nat)
      requires Valid() && i < |calls| && calls[i].progress.Waiting?
      modifies Repr
      ensures Valid() && Repr == old(Repr) && calls == old(calls)
      ensures starts == old(starts)[calls[i].key := calls[i].known]
      ensures !calls[i].progress.Rejected? && (calls[i].progress.Waiting? ==> calls[i].at == old(calls[i].at) + 1.0)
      ensures old(calls[i].at) + 1.0 >= calls[i].page ==> calls[i].progress.Returned?
      ensures old(Clean()) ==> Clean()
      ensures calls[i].beside && calls[i].page == 0.0 && server(calls[i].key, calls[i].asked).next != "" ==>
        !starts[calls[i].key].Prefix(server)
    {
      var c := calls[i];
      c.Step(server);
      forall d | d in calls ensures d.Valid(server) {
        assert old(d.Valid(server));
      }
      starts := starts[c.key := c.known];
    }

    /** A call's request fails or is aborted. */
    method Reject(i: nat)
      requires Valid() && i < |calls| && calls[i].progress.Waiting?
      modifies Repr
      ensures Valid() && Repr == old(Repr) && calls == old(calls) && starts == old(starts)
      ensures calls[i].progress.Rejected? && (old(Clean()) ==> Clean())
    {
      calls[i].progress := Rejected;
    }
  }

  datatype Event = Start(key: Key, page: real) | Reply(call: nat) | Fail(call: nat)

  /**
  Any calls, for any page numbers, interleaved at their awaits in any order. Only
  true cursors are ever stored and only true pages returned. As long as no page
  zero is asked for, every remembered list is a prefix of the true chain, and a
  call for a whole page from one up has found that page, or the last one when the
  list is shorter, as the plain walk has.
  */
  method Run(server: Server, events: seq<Event>) returns (pager: Pager)
    ensures fresh(pager) && pager.server == server && pager.Valid()
    ensures (forall e :: e in events && e.Start? ==> e.page != 0.0) ==> pager.Clean()
    ensures (forall e :: e in events && e.Start? ==> e.page != 0.0) ==>
              forall c :: c in pager.calls && c.progress.Returned? && c.page >= 1.0 && Index(c.page) ==>
                c.progress.result == Walk(server, c.key, c.page.Floor, 0) &&
                exists n :: Shows(server, c.key, c.page.Floor, c.progress.result, n)
  {
    pager := new Pager(server);
    for i := 0 to |events|
      invariant fresh(pager.Repr) && pager.server == server && pager.Valid()
      invariant (forall e :: e in events && e.Start? ==> e.page != 0.0) ==> pager.Clean()
    {
      match events[i] {
        case Start(key, page) =>
          assert events[i] in events;
          var _ := pager.Begin(key, page);
        case Reply(n) =>
          if n < |pager.calls| && pager.calls[n].progress.Waiting? {
            pager.Resume(n);
          }
        case Fail(n) =>
          if n < |pager.calls| && pager.calls[n].progress.Waiting? {
            pager.Reject(n);
          }
      }
    }
    if forall e :: e in events && e.Start? ==> e.page != 0.0 {
      forall c | c in pager.calls && c.progress.Returned? && c.page >= 1.0 && Index(c.page)
        ensures c.progress.result == Walk(server, c.key, c.page.Floor, 0)
        ensures exists n :: Shows(server, c.key, c.page.Floor, c.progress.result, n)
      {
        assert c.Valid(server) && c.straight && Ceiling(c.page) == c.page.Floor;
        var n := WalkFinds(server, c.key, c.page.Floor, 0);
      }
    }
  }

  /** Page zero writes the second page's cursor where the first one's belongs: from then on page one is answered with page two. */
  method PageZeroSpoils(server: Server, key: Key) returns (call: Call)
    requires server(key, "").next != ""
    ensures call.key == key && call.page == 1.0 && call.asked == Cursor(server, key, 1) && call.progress.Returned?
    ensures call.progress.result.page == 1.0 && ServedBy(server(key, Cursor(server, key, 1)), call.progress.result)
  {
    FirstOnChain(server, key);
    var known := new Known(key);
    var zero := new Call(key, 0.0, known, server);
    assert zero.at == -1.0 && zero.cursor == "";
    zero.Step(server);
    assert known.At(0.0) == server(key, "").next == Cursor(server, key, 1);
    call := new Call(key, 1.0, known, server);
    assert call.at == 0.0;
    call.Step(server);
  }

  lemma SecondPage(server: Server, key: Key)
    requires server(key, "").next != ""
    ensures Ceiling(1.5) == 2 && Walk(server, key, 2, 0).page == 2.0
  {
    assert Walk(server, key, 2, 0) == Walk(server, key, 2, 1);
  }

  /** A page number between two known pages is answered with the first page; asked of a new list it is answered with the second. */
  method FractionMisses(server: Server, key: Key) returns (call: Call)
    requires server(key, "").next != ""
    ensures call.key == key && call.page == 1.5 && call.progress.Returned?
    ensures call.progress.result.page == 1.5 && ServedBy(server(key, ""), call.progress.result)
    ensures Walk(server, key, Ceiling(call.page), 0).page == 2.0
  {
    FirstOnChain(server, key);
    var known := new Known(key);
    var one := new Call(key, 1.0, known, server);
    assert one.at == 0.0 && one.cursor == "" && Index(1.0);
    one.Step(server);
    assert |known.cursors| >= 2 && known.At(0.5) == "";
    call := new Call(key, 1.5, known, server);
    assert call.at == 0.5;
    call.Step(server);
    SecondPage(server, key);
  }
}
