/**
The rollout program, step by step. Every step may raise or the process may die
around it; a command that raises may or may not have taken effect, a file
rewritten in place may be left torn, and sockets change between any two steps.
*/
module RolloutOps {
  import opened RolloutWorld
  import opened Wrappers

  /** What becomes of a call: it returns, it raises, or the process dies in it. */
  datatype Outcome<+T> = Ok(value: T) | Raised | Died {
    predicate IsFailure() {
      !Ok?
    }

    function PropagateFailure<U>(): Outcome<U>
      requires !Ok?
    {
      if Raised? then Raised else Died
    }

    function Extract(): T
      requires Ok?
    {
      value
    }
  }

  datatype Deployed = AlreadyCurrent | Replaced(retained: nat)

  datatype Command = ReapOld | DeployImage(image: string)

  // ---- Names -------------------------------------------------------------

  predicate Alphanumeric(c: char) {
    'A' <= c <= 'Z' || 'a' <= c <= 'z' || '0' <= c <= '9'
  }

  predicate ValidImage(image: string) {
    1 <= |image| <= 512 && Alphanumeric(image[0]) &&
    forall i :: 1 <= i < |image| ==> Alphanumeric(image[i]) || image[i] in "._/@:-"
  }

  /** What follows the last colon. */
  function AfterColon(id: string): string {
    if ':' !in id then id else assert id[0] in id; AfterColon(id[1..])
  }

  lemma {:induction false} AfterLastColon(before: string, digest: string)
    requires ':' !in digest
    ensures AfterColon(before + ":" + digest) == digest && AfterColon(digest) == digest
  {
    var id := before + ":" + digest;
    assert id[|before|] == ':';
    if before == "" {
      assert id[1..] == digest;
    } else {
      assert id[1..] == before[1..] + ":" + digest;
      AfterLastColon(before[1..], digest);
    }
  }

  function CandidateName(id: string): Name {
    var digest := AfterColon(id);
    CANDIDATE_PREFIX + digest[..if |digest| < 16 then |digest| else 16]
  }

  lemma ImageChars(c: char)
    ensures Alphanumeric(c) || c in "._/@:-" <==> '-' <= c <= 'z' && c !in ";<=>?[\\]^`"
  {
  }

  /** An accepted image reference is one word of printable characters and no option: it adds nothing else wherever it is put. */
  lemma ValidImageIsOneWord(image: string)
    ensures ValidImage(image) <==>
      1 <= |image| <= 512 && image[0] !in "-._/@:" &&
      forall i :: 0 <= i < |image| ==> '-' <= image[i] <= 'z' && image[i] !in ";<=>?[\\]^`"
  {
    forall i | 0 <= i < |image|
      ensures Alphanumeric(image[i]) || image[i] in "._/@:-" <==> '-' <= image[i] <= 'z' && image[i] !in ";<=>?[\\]^`"
    {
      ImageChars(image[i]);
    }
  }

  /** A candidate is named after the first 16 characters of the digest, whatever algorithm is named before it. */
  lemma {:induction false} CandidateAfterDigest(algorithm: string, digest: string)
    requires ':' !in digest && |digest| >= 16
    ensures CandidateName(algorithm + ":" + digest) == "paperboat-server-" + digest[..16]
  {
    AfterLastColon(algorithm, digest);
  }

  lemma CandidateIsOurs(id: string, service: Name)
    ensures Ours(CandidateName(id), service) && CandidateName(id) != "server"
  {
    assert |CandidateName(id)| > |"server"|;
  }

  /** The switch to a candidate is committed, whole. */
  ghost predicate SwitchedTo(base: Config, s: Setup, candidate: Name, image: string) {
    s.journal.None? && base.env.Whole? && ConfigOf(s) == SwitchedConfig(base, candidate, image) &&
    Up(s, candidate) && s.containers[candidate].ref == image
  }

  // ---- Recovery as a function of the interrupted machine -------------------------

  /** The machine with its journaled switch undone. */
  function Undone(s: Setup): Setup
    requires s.journal.Some?
  {
    var j := s.journal.value;
    s.(caddy := Whole(j.caddy), loaded := j.caddy, env := Whole(j.env), state := Some(UndoneRecord(j)), journal := None)
  }

  /** Recovery broke off: only the four places it rewrites can differ. */
  predicate Interrupted(a: Setup, b: Setup) {
    b == a.(caddy := b.caddy, loaded := b.loaded, env := b.env, state := b.state)
  }

  /** Any number of interrupted recoveries and one that finishes end where an undisturbed one ends. */
  lemma {:induction false} RecoveryIsRestartable(attempts: seq<Setup>)
    requires |attempts| > 0 && attempts[0].journal.Some?
    requires forall k :: 0 < k < |attempts| ==> Interrupted(attempts[k - 1], attempts[k])
    ensures attempts[|attempts| - 1].journal.Some? && Undone(attempts[|attempts| - 1]) == Undone(attempts[0])
  {
    if |attempts| > 1 {
      RecoveryIsRestartable(attempts[..|attempts| - 1]);
      assert Interrupted(attempts[|attempts| - 2], attempts[|attempts| - 1]);
    }
  }

  /** Container `n` is as it was, unless it is one of `names`, which may be stopped or gone. */
  ghost predicate Survives(a: Setup, b: Setup, names: seq<Name>, n: Name) {
    (n in b.containers ==> n in a.containers) &&
    (n in a.containers && n !in names ==> n in b.containers && b.containers[n] == a.containers[n])
  }

  /** Only containers in `names` can be gone or stopped; nothing else differs. */
  ghost predicate OnlyRetires(a: Setup, b: Setup, names: seq<Name>) {
    b == a.(containers := b.containers) && forall n :: Survives(a, b, names, n)
  }

  /** A retained name is still there and runs; of the other names handled, none is. */
  ghost predicate Sorted(b: Setup, done: seq<Name>, retained: seq<Name>, n: Name) {
    if n in retained then n in done && Up(b, n) else n in done ==> n !in b.containers
  }

  /** Of the names in `done`, exactly the retained ones are still there, and they run. */
  ghost predicate Reaped(a: Setup, b: Setup, done: seq<Name>, retained: seq<Name>) {
    OnlyRetires(a, b, done) && |retained| <= |done| && Distinct(retained) && forall n :: Sorted(b, done, retained, n)
  }

  /** The containers of these names exist. */
  ghost predicate AllThere(s: Setup, names: seq<Name>) {
    forall n :: n in names ==> n in s.containers
  }

  /** The record a recovery would leave. */
  function Latest(s: Setup): Record {
    if s.journal.Some? then UndoneRecord(s.journal.value) else Record(Active(s), Retired(s))
  }

  /** A record the state file may hold next. */
  ghost predicate Recordable(s: Setup, r: Record) {
    match s.journal
    case None =>
      r.active == Active(s) && RecordOk(r, 2, s.service) &&
      forall n :: n in Retired(s) && n in s.containers ==> n in r.retired
    case Some(j) => r in {SwitchedRecord(j), UndoneRecord(j)}
  }

  /** The names that were kept can be recorded. */
  lemma ReapedRecord(a: Setup, b: Setup, names: seq<Name>, retained: seq<Name>)
    requires a.journal.None? && names == Retired(a) && RecordOk(Record(Active(a), names), 2, a.service)
    requires Reaped(a, b, names, retained)
    ensures b.journal.None? && Active(b) == Active(a) && b.state == a.state && Recordable(b, Record(Active(a), retained))
  {
    forall n ensures n in retained ==> n in names {
      assert Sorted(b, names, retained, n);
    }
    forall n | n in Retired(b) && n in b.containers ensures n in retained {
      assert Sorted(b, names, retained, n);
    }
  }

  lemma ReapedSaved(a: Setup, b: Setup, names: seq<Name>, retained: seq<Name>, state: Option<Record>)
    requires Reaped(a, b, names, retained)
    ensures Reaped(a.(state := state), b.(state := state), names, retained)
  {
    forall n ensures Survives(a.(state := state), b.(state := state), names, n) {
      assert Survives(a, b, names, n);
    }
    forall n ensures Sorted(b.(state := state), names, retained, n) {
      assert Sorted(b, names, retained, n);
    }
  }

  lemma ReapedNone(a: Setup)
    ensures Reaped(a, a, [], [])
  {
  }

  lemma OnlyRetiresKeeps(a: Setup, b: Setup, names: seq<Name>)
    requires OnlyRetires(a, b, names)
    ensures b.journal == a.journal && b.state == a.state && b.service == a.service && Active(b) == Active(a)
    ensures Active(a) in a.containers && Active(a) !in names ==>
              Active(a) in b.containers && b.containers[Active(a)] == a.containers[Active(a)]
  {
    assert Survives(a, b, names, Active(a));
  }

  lemma RetiredRun(a: Setup, b: Setup, names: seq<Name>, retained: seq<Name>)
    requires Reaped(a, b, names, retained)
    ensures forall n :: n in retained ==> Up(b, n)
  {
    forall n | n in retained ensures Up(b, n) {
      assert Sorted(b, names, retained, n);
    }
  }

  lemma OnlyRetiresMore(a: Setup, b: Setup, c: Setup, done: seq<Name>, name: Name, names: seq<Name>)
    requires OnlyRetires(a, b, done) && OnlyRetires(b, c, [name]) && name in names
    requires forall n :: n in done ==> n in names
    ensures OnlyRetires(a, c, names)
  {
    forall n ensures Survives(a, c, names, n) {
      assert Survives(a, b, done, n) && Survives(b, c, [name], n);
    }
  }

  function Kept(retained: seq<Name>, name: Name, keep: bool): seq<Name> {
    if keep then retained + [name] else retained
  }

  lemma ReapedMore(a: Setup, b: Setup, c: Setup, done: seq<Name>, retained: seq<Name>, name: Name, kept: bool)
    requires Reaped(a, b, done, retained) && name !in done && OnlyRetires(b, c, [name])
    requires if kept then c == b && Up(c, name) else name !in c.containers
    ensures Reaped(a, c, done + [name], Kept(retained, name, kept))
  {
    OnlyRetiresMore(a, b, c, done, name, done + [name]);
    assert Sorted(b, done, retained, name);
    forall n ensures Sorted(c, done + [name], Kept(retained, name, kept), n) {
      assert Sorted(b, done, retained, n) && Survives(b, c, [name], n);
    }
  }

  /** From state `from` on, `name`'s two tables were read, one after the other, and showed an accepted connection. */
  ghost predicate SeenBusy(run: seq<World>, from: nat, name: Name) {
    exists i, j :: from <= i <= j < |run| && Busy(Tables(TablesOf(run[i], name).tcp, TablesOf(run[j], name).tcp6))
  }

  lemma SeenBusyLater(run: seq<World>, more: seq<World>, from: nat, since: nat, name: Name)
    requires SeenBusy(run, from, name) && run <= more && since <= from
    ensures SeenBusy(more, since, name)
  {
    var i, j :| from <= i <= j < |run| && Busy(Tables(TablesOf(run[i], name).tcp, TablesOf(run[j], name).tcp6));
    assert run[i] == more[i] && run[j] == more[j];
  }

  ghost predicate SeenBusyAt(run: seq<World>, from: nat, names: seq<Name>, k: nat)
    requires k < |names|
  {
    SeenBusy(run, from, names[k])
  }

  ghost predicate AllSeenBusy(run: seq<World>, from: nat, names: seq<Name>) {
    forall k :: 0 <= k < |names| ==> SeenBusyAt(run, from, names, k)
  }

  lemma AllSeenBusyLater(run: seq<World>, more: seq<World>, from: nat, names: seq<Name>)
    requires AllSeenBusy(run, from, names) && run <= more
    ensures AllSeenBusy(more, from, names)
  {
    forall k | 0 <= k < |names| ensures SeenBusyAt(more, from, names, k) {
      assert SeenBusyAt(run, from, names, k);
      SeenBusyLater(run, more, from, from, names[k]);
    }
  }

  lemma OneMoreSeenBusy(run: seq<World>, from: nat, since: nat, names: seq<Name>, name: Name)
    requires AllSeenBusy(run, since, names) && SeenBusy(run, from, name) && since <= from
    ensures AllSeenBusy(run, since, names + [name])
  {
    forall k | 0 <= k < |names + [name]| ensures SeenBusyAt(run, since, names + [name], k) {
      if k < |names| {
        assert SeenBusyAt(run, since, names, k);
      } else {
        SeenBusyLater(run, run, from, since, name);
      }
    }
  }

  lemma CountShowsBusy(run: seq<World>, from: nat, i: nat, j: nat, name: Name, tcp: seq<Row>, tcp6: seq<Row>)
    requires from <= i <= j < |run| && ConnectionCount([tcp, tcp6]) != 0
    requires tcp == Printed(TablesOf(run[i], name).tcp) && tcp6 == Printed(TablesOf(run[j], name).tcp6)
    ensures SeenBusy(run, from, name)
  {
    ConnectionCountDecidesBusy(Tables(TablesOf(run[i], name).tcp, TablesOf(run[j], name).tcp6));
  }

  /** One turn over the retired names, whether or not it went through. */
  lemma TurnRetires(a: Setup, b: Setup, c: Setup, names: seq<Name>, i: nat, retained: seq<Name>, kept: Outcome<bool>)
    requires i < |names| && Distinct(names) && Reaped(a, b, names[..i], retained) && OnlyRetires(b, c, [names[i]])
    requires kept == Ok(true) ==> c == b && Up(c, names[i])
    requires kept == Ok(false) ==> names[i] !in c.containers
    ensures OnlyRetires(a, c, names)
    ensures kept.Ok? ==> Reaped(a, c, names[..i + 1], Kept(retained, names[i], kept.value))
  {
    OnlyRetiresMore(a, b, c, names[..i], names[i], names);
    if kept.Ok? {
      ReapedMore(a, b, c, names[..i], retained, names[i], kept.value);
      assert names[..i + 1] == names[..i] + [names[i]];
    }
  }

  lemma TurnSeesBusy(run: seq<World>, more: seq<World>, from: nat, retained: seq<Name>, name: Name, keep: bool)
    requires AllSeenBusy(run, from, retained) && run <= more && from < |run|
    requires keep ==> SeenBusy(more, |run| - 1, name)
    ensures AllSeenBusy(more, from, Kept(retained, name, keep))
  {
    AllSeenBusyLater(run, more, from, retained);
    if keep {
      OneMoreSeenBusy(more, |run| - 1, from, retained, name);
    }
  }

  lemma AllSeenBusySince(run: seq<World>, from: nat, since: nat, names: seq<Name>)
    requires AllSeenBusy(run, from, names) && since <= from
    ensures AllSeenBusy(run, since, names)
  {
    forall k | 0 <= k < |names| ensures SeenBusyAt(run, since, names, k) {
      assert SeenBusyAt(run, from, names, k);
      SeenBusyLater(run, run, from, since, names[k]);
    }
  }

  /**
  Since state `from` the retired servers were reaped: those still recorded run
  and were seen holding a connection, the others are gone.
  */
  ghost predicate KeptInUse(run: seq<World>, from: nat) {
    from < |run| &&
    var a, b := run[from].setup, run[|run| - 1].setup;
    Reaped(a.(state := b.state), b, Retired(a), Retired(b)) && AllSeenBusy(run, from, Retired(b))
  }

  lemma KeptSince(run: seq<World>, from: nat, a: Setup, b: Setup)
    requires from < |run| && run[from].setup == a && run[|run| - 1].setup == b
    requires Reaped(a.(state := b.state), b, Retired(a), Retired(b)) && AllSeenBusy(run, from, Retired(b))
    ensures KeptInUse(run, from)
  {
  }

  lemma KeptEarlier(run: seq<World>, from: nat, since: nat)
    requires KeptInUse(run, from) && since <= from && run[since].setup == run[from].setup
    ensures KeptInUse(run, since)
  {
    AllSeenBusySince(run, from, since, Retired(run[|run| - 1].setup));
  }

  lemma RetiredThere(run: seq<World>, from: nat)
    requires KeptInUse(run, from)
    ensures AllThere(run[|run| - 1].setup, Retired(run[|run| - 1].setup))
  {
    var a, b := run[from].setup, run[|run| - 1].setup;
    RetiredRun(a.(state := b.state), b, Retired(a), Retired(b));
  }

  /** A configuration a switch can rewrite: two upstreams of its serving container and one image setting. */
  ghost predicate Replaceable(c: Config) {
    c.env.Whole? && RerouteCount(c.loaded, c.active) == 2 && SetImageCount(c.env.text) == 1
  }

  /** A switch leaves the retired and the replaced server there. */
  lemma StillThere(a: Setup, b: Setup, candidate: Name)
    requires AllThere(a, Retired(a)) && Active(a) in a.containers && b.containers - {candidate} == a.containers
    requires Retired(b) == Retired(a) + [Active(a)]
    ensures AllThere(b, Retired(b))
  {
    forall n | n in Retired(b) ensures n in b.containers {
      assert n in a.containers;
      assert n in b.containers - {candidate};
    }
  }

  /** A container that may go: not the serving one, not routed to, holding nothing. */
  ghost predicate Disposable(w: World, name: Name) {
    w.setup.journal.None? && name != Active(w.setup) && Quiet(w, name)
  }

  /** A free name for a managed container. */
  predicate Startable(s: Setup, name: Name) {
    name !in s.containers && name != "server" && Ours(name, s.service)
  }

  function Started(w: World, name: Name, c: Container): World {
    World(w.setup.(containers := w.setup.containers[name := c]), w.sockets[name := Tables([], [])])
  }

  lemma StartedKeepsInv(w: World, name: Name, c: Container)
    requires Inv(w.setup) && w.setup.journal.None? && Startable(w.setup, name)
    ensures var next := Started(w, name, c);
            Inv(next.setup) && Lawful(w.setup, next.setup) && Spares(w, next) && Disposable(next, name)
  {
    OnlyActiveRouted(w.setup, name);
  }

  lemma UnstartedIsDisposable(w: World, name: Name)
    requires Inv(w.setup) && w.setup.journal.None? && Startable(w.setup, name)
    ensures Disposable(w, name) && w.setup.containers - {name} == w.setup.containers
  {
    OnlyActiveRouted(w.setup, name);
  }

  lemma AddedAndTaken(containers: map<Name, Container>, name: Name, c: Container)
    requires name !in containers
    ensures containers[name := c] - {name} == containers
  {
  }

  lemma KeptSpares(a: World, b: World)
    requires b.setup.containers == a.setup.containers
    ensures Spares(a, b)
  {
  }

  /** While a switch is in flight, the files may hold anything and the route one of two texts. */
  lemma RewrittenKeepsInv(s: Setup, t: Setup)
    requires Inv(s) && s.journal.Some? && t == s.(caddy := t.caddy, loaded := t.loaded, env := t.env)
    requires t.loaded in {s.loaded, s.journal.value.caddy, SwitchedCaddy(s.journal.value)}
    ensures Inv(t) && Lawful(s, t)
  {
  }

  /** Only `name` is stopped or gone. */
  predicate Without(a: map<Name, Container>, b: map<Name, Container>, name: Name) {
    a - {name} == b - {name} && (name in b ==> name in a)
  }

  lemma WithoutSurvives(s: Setup, containers: map<Name, Container>, name: Name, n: Name)
    requires Without(s.containers, containers, name)
    ensures Survives(s, s.(containers := containers), [name], n)
  {
    if n != name {
      assert n in s.containers <==> n in s.containers - {name};
      assert n in containers <==> n in containers - {name};
      assert n in s.containers ==> s.containers[n] == (s.containers - {name})[n] == (containers - {name})[n];
    }
  }

  lemma DisposedSpares(w: World, name: Name, containers: map<Name, Container>)
    requires Quiet(w, name) && Without(w.setup.containers, containers, name)
    ensures Spares(w, w.(setup := w.setup.(containers := containers)))
    ensures OnlyRetires(w.setup, w.setup.(containers := containers), [name])
  {
    forall n ensures Survives(w.setup, w.setup.(containers := containers), [name], n) {
      WithoutSurvives(w.setup, containers, name, n);
    }
    forall n | n in w.setup.containers && n != name ensures n in containers && containers[n] == w.setup.containers[n] {
      assert Survives(w.setup, w.setup.(containers := containers), [name], n);
    }
  }

  lemma DisposedKeepsInv(s: Setup, name: Name, containers: map<Name, Container>)
    requires Inv(s) && s.journal.None? && name != Active(s) && Without(s.containers, containers, name)
    ensures Inv(s.(containers := containers)) && Lawful(s, s.(containers := containers))
  {
    WithoutSurvives(s, containers, name, Active(s));
    WithoutSurvives(s, containers, name, "server");
  }

  lemma RecordedKeepsInv(s: Setup, r: Record)
    requires Inv(s) && Recordable(s, r)
    ensures Inv(s.(state := Some(r))) && Lawful(s, s.(state := Some(r)))
  {
  }

  /** Everything is restored but for the journal. */
  ghost predicate Undoable(s: Setup) {
    s.journal.Some? && s.(journal := None) == Undone(s)
  }

  /** Everything is switched but for the journal. */
  ghost predicate Committable(s: Setup) {
    s.journal.Some? && s.journal.value.candidate in s.containers &&
    s.state == Some(SwitchedRecord(s.journal.value)) &&
    ConfigOf(s) == AfterConfig(s.journal.value, s.containers[s.journal.value.candidate].ref)
  }

  /** With everything restored, dropping the journal leaves a settled machine. */
  lemma UndoneSettles(s: Setup)
    requires Inv(s) && Undoable(s)
    ensures Inv(Undone(s)) && Lawful(s, Undone(s))
  {
    var j := s.journal.value;
    assert j.candidate !in j.before.retired && Distinct(j.before.retired + [j.candidate]);
  }

  /** With everything switched, dropping the journal leaves a settled machine. */
  lemma SwitchedSettles(s: Setup)
    requires Inv(s) && Committable(s)
    ensures Inv(s.(journal := None)) && Lawful(s, s.(journal := None))
  {
    var j := s.journal.value;
    RerouteLeads(j.caddy, j.before.active, j.candidate, s.service);
    SetImageNames(j.env, s.containers[j.candidate].ref);
    assert Distinct(j.before.retired + [j.before.active]);
  }

  lemma UnlinkedKeepsInv(s: Setup)
    requires Inv(s) && (Undoable(s) || Committable(s))
    ensures Inv(s.(journal := None)) && Lawful(s, s.(journal := None))
  {
    if Undoable(s) {
      UndoneSettles(s);
    } else {
      SwitchedSettles(s);
    }
  }

  class Rollout {
    var host: World

    /** Every state the machine has been in, oldest first. */
    ghost var trace: seq<World>

    /** How many commands did not do what they were run for. */
    ghost var faults: nat

    /** The readiness probes that were answered, oldest first. */
    ghost var answered: seq<Name>

    ghost predicate Valid()
      reads this
    {
      |trace| > 0 && trace[|trace| - 1] == host && GoodRun(trace)
    }

    /** The invariant holds now. */
    lemma Holds()
      requires Valid()
      ensures Inv(host.setup)
    {
      GoodRunAt(trace, |trace| - 1);
    }

    lemma ActiveThere()
      requires Valid() && host.setup.journal.None?
      ensures Active(host.setup) in host.setup.containers
    {
      Holds();
    }

    lemma Unrouted(name: Name)
      requires Valid() && host.setup.journal.None? && name in host.setup.containers
      requires name != Active(host.setup) && Ours(name, host.setup.service)
      ensures !Routed(host.setup, name)
    {
      Holds();
      OnlyActiveRouted(host.setup, name);
    }

    lemma RecordHolds()
      requires Valid() && host.setup.journal.None?
      ensures RecordOk(Record(Active(host.setup), Retired(host.setup)), 2, host.setup.service)
    {
      Holds();
    }

    /** The machine as Compose bootstraps it: no record, no journal, the proxy leading to the service. */
    constructor (host: World)
      requires Inv(host.setup) && host.setup.state.None? && host.setup.journal.None?
      ensures Valid() && this.host == host && trace == [host] && answered == [] && faults == 0
    {
      this.host := host;
      trace, answered, faults := [host], [], 0;
      GoodRunMore([], host);
      assert [host] == [] + [host];
    }

    // ---- Steps -------------------------------------------------------------

    method Become(next: World)
      requires Valid() && Inv(next.setup) && Lawful(host.setup, next.setup) && Spares(host, next)
      modifies `host, `trace
      ensures Valid() && host == next && trace == old(trace) + [next]
    {
      GoodRunMore(trace, next);
      host := next;
      trace := trace + [next];
    }

    /** Time passes. */
    method Pause()
      requires Valid()
      modifies `host, `trace
      ensures Valid() && Drift(old(host), host) && old(trace) <= trace
    {
      assert Drift(host, host);
      var next: World :| Drift(host, next);
      assert Drift(host, next);
      Holds();
      KeptSpares(host, next);
      Become(next);
    }

    /** A command that raises, or in which the process dies, is a fault. */
    ghost method Blame<T>(o: Outcome<T>)
      modifies `faults
      ensures faults == old(faults) + if o.Ok? then 0 else 1
    {
      if !o.Ok? {
        faults := faults + 1;
      }
    }

    /** A command that changes nothing, such as `docker inspect`. */
    method Ask() returns (o: Outcome<()>)
      requires Valid()
      modifies `host, `trace, `faults
      ensures Valid() && Drift(old(host), host) && old(trace) <= trace
      ensures faults == old(faults) + if o.Ok? then 0 else 1
    {
      Pause();
      o := *;
      Blame(o);
    }

    method Inspect(name: Name) returns (o: Outcome<Container>)
      requires Valid()
      modifies `host, `trace, `faults
      ensures Valid() && Drift(old(host), host) && old(trace) <= trace
      ensures o.Ok? ==> name in host.setup.containers && o.value == host.setup.containers[name]
      ensures old(faults) <= faults && (o.Ok? || old(faults) < faults || name !in host.setup.containers)
    {
      var _ :- Ask();
      o := if name in host.setup.containers then Ok(host.setup.containers[name]) else Raised;
    }

    /** `docker exec <name> cat /proc/net/tcp` or `.../tcp6`. */
    method Cat(name: Name, six: bool) returns (o: Outcome<seq<Row>>)
      requires Valid()
      modifies `host, `trace, `faults
      ensures Valid() && Drift(old(host), host) && old(trace) <= trace
      ensures o.Ok? ==> Up(host.setup, name) && o.value == Printed(Table(TablesOf(host, name), six))
      ensures old(faults) <= faults && (o.Ok? || old(faults) < faults || !Up(host.setup, name))
    {
      var _ :- Ask();
      o := if Up(host.setup, name) then Ok(Printed(Table(TablesOf(host, name), six))) else Raised;
    }

    /** The readiness probe runs inside the container; a failed probe is an answer, not an error. */
    method Ready(name: Name) returns (o: Outcome<bool>)
      requires Valid()
      modifies this
      ensures Valid() && Drift(old(host), host) && old(trace) <= trace
      ensures !o.Raised? && (o == Ok(true) ==> Up(host.setup, name))
      ensures answered == old(answered) + if o == Ok(true) then [name] else []
      ensures old(faults) <= faults && (o == Ok(true) || old(faults) < faults || !Up(host.setup, name))
    {
      var asked := Ask();
      if asked.Died? {
        return Died;
      }
      o := Ok(asked.Ok? && Up(host.setup, name));
      answered := answered + if o.value then [name] else [];
    }

    /** A step of a switch in flight: a file or the route changes. */
    method Rewrite(next: Setup)
      requires Valid() && host.setup.journal.Some?
      requires next == host.setup.(caddy := next.caddy, loaded := next.loaded, env := next.env)
      requires next.loaded in {host.setup.loaded, host.setup.journal.value.caddy, SwitchedCaddy(host.setup.journal.value)}
      modifies `host, `trace
      ensures Valid() && host.setup == next && old(trace) <= trace
    {
      Pause();
      Holds();
      RewrittenKeepsInv(host.setup, next);
      KeptSpares(host, host.(setup := next));
      Become(host.(setup := next));
    }

    method WriteCaddy(text: Caddy) returns (o: Outcome<()>)
      requires Valid() && host.setup.journal.Some?
      modifies `host, `trace, `faults
      ensures Valid() && old(trace) <= trace
      ensures host.setup == old(host.setup).(caddy := host.setup.caddy)
      ensures o.Ok? ==> host.setup.caddy == Whole(text)
      ensures old(faults) <= faults && (o.Ok? || old(faults) < faults)
    {
      o := *;
      Blame(o);
      if o.Ok? {
        Rewrite(host.setup.(caddy := Torn));
        Pause();
        Rewrite(host.setup.(caddy := Whole(text)));
      } else {
        var left: File<Caddy> := *;
        Rewrite(host.setup.(caddy := left));
      }
      Pause();
    }

    method WriteEnv(text: Env) returns (o: Outcome<()>)
      requires Valid() && host.setup.journal.Some?
      modifies `host, `trace, `faults
      ensures Valid() && old(trace) <= trace
      ensures host.setup == old(host.setup).(env := host.setup.env)
      ensures o.Ok? ==> host.setup.env == Whole(text)
      ensures old(faults) <= faults && (o.Ok? || old(faults) < faults)
    {
      o := *;
      Blame(o);
      if o.Ok? {
        Rewrite(host.setup.(env := Torn));
        Pause();
        Rewrite(host.setup.(env := Whole(text)));
      } else {
        var left: File<Env> := *;
        Rewrite(host.setup.(env := left));
      }
      Pause();
    }

    /** The proxy loads the Caddyfile; a reload that raises may still have been carried out. */
    method Reload() returns (o: Outcome<()>)
      requires Valid() && host.setup.journal.Some? && host.setup.caddy.Whole?
      requires host.setup.caddy.text in {host.setup.journal.value.caddy, SwitchedCaddy(host.setup.journal.value)}
      modifies `host, `trace, `faults
      ensures Valid() && old(trace) <= trace
      ensures host.setup == old(host.setup).(loaded := host.setup.loaded)
      ensures o.Ok? ==> host.setup.loaded == host.setup.caddy.text
      ensures old(faults) <= faults && (o.Ok? || old(faults) < faults)
    {
      o := *;
      Blame(o);
      var effect: bool := *;
      if o.Ok? || effect {
        Rewrite(host.setup.(loaded := host.setup.caddy.text));
      }
      Pause();
    }

    /** The state file is replaced atomically; raising means it was not. */
    method SaveState(r: Record) returns (o: Outcome<()>)
      requires Valid() && Recordable(host.setup, r)
      modifies `host, `trace, `faults
      ensures Valid() && old(trace) <= trace
      ensures host.setup in {old(host.setup), old(host.setup).(state := Some(r))}
      ensures o.Ok? ==> host.setup.state == Some(r)
      ensures o.Raised? ==> host.setup == old(host.setup)
      ensures old(faults) <= faults && (o.Ok? || old(faults) < faults)
    {
      o := *;
      Blame(o);
      Pause();
      var effect: bool := *;
      if o.Ok? || (o.Died? && effect) {
        Holds();
        RecordedKeepsInv(host.setup, r);
        KeptSpares(host, host.(setup := host.setup.(state := Some(r))));
        Become(host.(setup := host.setup.(state := Some(r))));
      }
      Pause();
    }

    method SaveJournal(j: Journal) returns (o: Outcome<()>)
      requires Valid() && host.setup.journal.None? && Inv(host.setup.(journal := Some(j)))
      requires ConfigOf(host.setup) == BeforeConfig(j)
      modifies `host, `trace, `faults
      ensures Valid() && old(trace) <= trace
      ensures host.setup in {old(host.setup), old(host.setup).(journal := Some(j))}
      ensures o.Ok? ==> host.setup.journal == Some(j)
      ensures o.Raised? ==> Drift(old(host), host)
      ensures old(faults) <= faults && (o.Ok? || old(faults) < faults)
    {
      o := *;
      Blame(o);
      Pause();
      var effect: bool := *;
      if o.Ok? || (o.Died? && effect) {
        Become(host.(setup := host.setup.(journal := Some(j))));
      }
      Pause();
    }

    /** The commit point, of a switch and of its recovery alike. */
    method UnlinkJournal() returns (o: Outcome<()>)
      requires Valid() && host.setup.journal.Some?
      requires Undoable(host.setup) || Committable(host.setup)
      modifies `host, `trace, `faults
      ensures Valid() && old(trace) <= trace
      ensures host.setup in {old(host.setup), old(host.setup).(journal := None)}
      ensures o.Ok? ==> host.setup.journal.None?
      ensures o.Raised? ==> host.setup == old(host.setup)
      ensures old(faults) <= faults && (o.Ok? || old(faults) < faults)
    {
      o := *;
      Blame(o);
      Pause();
      var effect: bool := *;
      if o.Ok? || (o.Died? && effect) {
        Holds();
        UnlinkedKeepsInv(host.setup);
        KeptSpares(host, host.(setup := host.setup.(journal := None)));
        Become(host.(setup := host.setup.(journal := None)));
      }
      Pause();
    }

    /** `docker compose run -d --name <name> server`: when it raises, a container may be there or not. */
    method DockerRun(name: Name, image: string) returns (o: Outcome<()>)
      requires Valid() && host.setup.journal.None? && Startable(host.setup, name)
      modifies `host, `trace, `faults
      ensures Valid() && old(trace) <= trace && Disposable(host, name)
      ensures host.setup == old(host.setup).(containers := host.setup.containers)
      ensures host.setup.containers - {name} == old(host.setup.containers)
      ensures name in host.setup.containers ==> host.setup.containers[name].ref == image
      ensures o.Ok? ==> name in host.setup.containers
      ensures old(faults) <= faults && (old(faults) < faults || (o.Ok? && Up(host.setup, name)))
    {
      o := *;
      var running: bool := *;
      Blame(if running then o else Raised);
      Pause();
      var effect: bool := *;
      Holds();
      UnstartedIsDisposable(host, name);
      if o.Ok? || effect {
        var id: string := *;
        var container := Container(id, image, running);
        StartedKeepsInv(host, name, container);
        AddedAndTaken(host.setup.containers, name, container);
        Become(Started(host, name, container));
      }
      ghost var was := host;
      Pause();
      DriftKeepsQuiet(was, host, name);
    }

    method DockerStop(name: Name) returns (o: Outcome<()>)
      requires Valid() && Disposable(host, name) && name in host.setup.containers
      modifies `host, `trace, `faults
      ensures Valid() && old(trace) <= trace && OnlyRetires(old(host.setup), host.setup, [name]) && Disposable(host, name)
      ensures o.Ok? ==> !Up(host.setup, name)
      ensures old(faults) <= faults && (o.Ok? || old(faults) < faults)
    {
      o := *;
      Blame(o);
      ghost var asked := host;
      Pause();
      DriftKeepsQuiet(asked, host, name);
      var effect: bool := *;
      if o.Ok? || effect {
        var containers := host.setup.containers[name := host.setup.containers[name].(running := false)];
        Holds();
        DisposedKeepsInv(host.setup, name, containers);
        DisposedSpares(host, name, containers);
        Become(host.(setup := host.setup.(containers := containers)));
      }
      ghost var was := host;
      Pause();
      DriftKeepsQuiet(was, host, name);
    }

    /** `docker rm`, which refuses a running container unless forced. */
    method DockerRemove(name: Name, force: bool) returns (o: Outcome<()>)
      requires Valid() && Disposable(host, name)
      modifies `host, `trace, `faults
      ensures Valid() && old(trace) <= trace && OnlyRetires(old(host.setup), host.setup, [name])
      ensures o.Ok? ==> name !in host.setup.containers
      ensures old(faults) <= faults && (o.Ok? || old(faults) < faults || (!force && old(Up(host.setup, name))))
    {
      o := *;
      Blame(o);
      ghost var asked := host;
      Pause();
      DriftKeepsQuiet(asked, host, name);
      var effect: bool := *;
      if name in host.setup.containers && !force && host.setup.containers[name].running {
        o := if o.Died? then Died else Raised;
      } else if name in host.setup.containers && (o.Ok? || effect) {
        Holds();
        DisposedKeepsInv(host.setup, name, host.setup.containers - {name});
        DisposedSpares(host, name, host.setup.containers - {name});
        Become(host.(setup := host.setup.(containers := host.setup.containers - {name})));
      }
      Pause();
    }

    // ---- The program ----------------------------------------------------------

    method Current() returns (o: Outcome<Record>)
      requires Valid() && host.setup.journal.None?
      modifies `host, `trace, `faults
      ensures Valid() && host.setup == old(host.setup) && old(trace) <= trace
      ensures o.Ok? ==> o.value == Record(Active(host.setup), Retired(host.setup))
      ensures old(faults) <= faults && (o.Ok? || old(faults) < faults)
    {
      Holds();
      if host.setup.state.Some? {
        Pause();
        return Ok(host.setup.state.value);
      }
      var _ :- Ask();
      if !Up(host.setup, host.setup.service) {
        return Raised;
      }
      var _ :- Inspect(host.setup.service);
      return Ok(Record(host.setup.service, []));
    }

    /** Reads a container's two socket tables, one after the other. */
    method HoldsConnections(name: Name) returns (o: Outcome<bool>)
      requires Valid() && name in host.setup.containers && !Routed(host.setup, name)
      modifies `host, `trace, `faults
      ensures Valid() && old(trace) <= trace && host.setup == old(host.setup)
      ensures o.Ok? ==> Up(host.setup, name)
      ensures o == Ok(false) ==> Quiet(host, name)
      ensures o == Ok(true) ==> SeenBusy(trace, |old(trace)| - 1, name)
      ensures old(faults) <= faults && (o.Ok? || old(faults) < faults || !Up(host.setup, name))
    {
      var tcp :- Cat(name, false);
      ghost var first, at := host, |trace| - 1;
      var tcp6 :- Cat(name, true);
      if ConnectionCount([tcp, tcp6]) == 0 {
        StaggeredCount(first, host, name);
        return Ok(false);
      }
      CountShowsBusy(trace, |old(trace)| - 1, at, |trace| - 1, name, tcp, tcp6);
      return Ok(true);
    }

    /** Stops a server that is not in use, copies its logs as well as it can, and removes it. */
    method Dispose(name: Name, running: bool) returns (o: Outcome<()>)
      requires Valid() && Disposable(host, name) && name in host.setup.containers
      modifies `host, `trace, `faults
      ensures Valid() && old(trace) <= trace && OnlyRetires(old(host.setup), host.setup, [name])
      ensures o.Ok? ==> name !in host.setup.containers
      ensures old(faults) <= faults && (o.Ok? || old(faults) < faults || (!running && old(Up(host.setup, name))))
    {
      if running {
        var _ :- DockerStop(name);
      }
      ghost var was := host;
      var logs := Ask();
      if logs.Died? {
        return Died;
      }
      DriftKeepsQuiet(was, host, name);
      o := DockerRemove(name, false);
      OnlyRetiresMore(old(host.setup), was.setup, host.setup, [name], name, [name]);
    }

    /** One retired server: kept when it holds a connection, stopped and removed otherwise. */
    method Retire(name: Name) returns (o: Outcome<bool>)
      requires Valid() && host.setup.journal.None? && name != Active(host.setup) && Ours(name, host.setup.service)
      modifies `host, `trace, `faults
      ensures Valid() && old(trace) <= trace && OnlyRetires(old(host.setup), host.setup, [name])
      ensures o == Ok(true) ==> host.setup == old(host.setup) && Up(host.setup, name)
      ensures o == Ok(true) ==> SeenBusy(trace, |old(trace)| - 1, name)
      ensures o == Ok(false) ==> name !in host.setup.containers
      ensures old(faults) <= faults && (o.Ok? || old(faults) < faults || name !in old(host.setup.containers))
      ensures o.Ok? ==> name in old(host.setup.containers)
    {
      var info :- Inspect(name);
      Unrouted(name);
      if info.running {
        ghost var inspected := trace;
        var holds :- HoldsConnections(name);
        if holds {
          SeenBusyLater(trace, trace, |inspected| - 1, |old(trace)| - 1, name);
          return Ok(true);
        }
      }
      var _ :- Dispose(name, info.running);
      return Ok(false);
    }

    /** One turn over the retired servers, `start` being the machine before the first. */
    method RetireNext(names: seq<Name>, i: nat, retained: seq<Name>, ghost start: Setup, ghost from: nat)
      returns (o: Outcome<seq<Name>>)
      requires Valid() && start.journal.None? && from < |trace|
      requires Distinct(names) && i < |names| && names[i] != Active(start) && Ours(names[i], start.service)
      requires Reaped(start, host.setup, names[..i], retained) && AllSeenBusy(trace, from, retained)
      modifies `host, `trace, `faults
      ensures Valid() && old(trace) <= trace && OnlyRetires(start, host.setup, names)
      ensures o.Ok? ==> Reaped(start, host.setup, names[..i + 1], o.value) && AllSeenBusy(trace, from, o.value)
      ensures old(faults) <= faults && (o.Ok? || old(faults) < faults || names[i] !in start.containers)
      ensures o.Ok? ==> names[i] in start.containers
    {
      ghost var was, run := host.setup, trace;
      OnlyRetiresKeeps(start, was, names[..i]);
      assert Survives(start, was, names[..i], names[i]);
      var kept := Retire(names[i]);
      TurnRetires(start, was, host.setup, names, i, retained, kept);
      var keep :- kept;
      TurnSeesBusy(run, trace, from, retained, names[i], keep);
      return Ok(Kept(retained, names[i], keep));
    }

    /** The retired servers in turn: those that hold a connection are kept. */
    method RetireAll(names: seq<Name>) returns (o: Outcome<seq<Name>>)
      requires Valid() && host.setup.journal.None? && Distinct(names) && Active(host.setup) !in names
      requires forall n :: n in names ==> Ours(n, host.setup.service)
      modifies `host, `trace, `faults
      ensures Valid() && old(trace) <= trace && OnlyRetires(old(host.setup), host.setup, names)
      ensures o.Ok? ==> Reaped(old(host.setup), host.setup, names, o.value)
      ensures o.Ok? ==> AllSeenBusy(trace, |old(trace)| - 1, o.value)
      ensures old(faults) <= faults && (o.Ok? || old(faults) < faults || !AllThere(old(host.setup), names))
      ensures o.Ok? ==> AllThere(old(host.setup), names)
    {
      var retained: seq<Name> := [];
      ReapedNone(host.setup);
      for i := 0 to |names|
        invariant Valid() && old(trace) <= trace
        invariant Reaped(old(host.setup), host.setup, names[..i], retained)
        invariant AllSeenBusy(trace, |old(trace)| - 1, retained)
        invariant old(faults) <= faults && AllThere(old(host.setup), names[..i])
      {
        assert names[i] in names;
        retained :- RetireNext(names, i, retained, old(host.setup), |old(trace)| - 1);
      }
      assert names[..|names|] == names;
      return Ok(retained);
    }

    /** Removes the retired servers that hold no connection and records the others. */
    method Reap(state: Record) returns (o: Outcome<nat>)
      requires Valid() && host.setup.journal.None? && state == Record(Active(host.setup), Retired(host.setup))
      modifies `host, `trace, `faults
      ensures Valid() && old(trace) <= trace && host.setup.journal.None? && ConfigOf(host.setup) == old(ConfigOf(host.setup))
      ensures state.active in old(host.setup.containers) ==>
        state.active in host.setup.containers && host.setup.containers[state.active] == old(host.setup.containers)[state.active]
      ensures OnlyRetires(old(host.setup).(state := host.setup.state), host.setup, state.retired)
      ensures o.Ok? ==> host.setup.state.Some? && |Retired(host.setup)| == o.value
      ensures o.Ok? ==> KeptInUse(trace, |old(trace)| - 1)
      ensures o.Raised? ==> host.setup.state == old(host.setup.state)
      ensures old(faults) <= faults && (o.Ok? || old(faults) < faults || !AllThere(old(host.setup), state.retired))
      ensures o.Ok? ==> AllThere(old(host.setup), state.retired)
    {
      RecordHolds();
      var retired := RetireAll(state.retired);
      OnlyRetiresKeeps(old(host.setup), host.setup, state.retired);
      var retained :- retired;
      ReapedRecord(old(host.setup), host.setup, state.retired, retained);
      ghost var run := trace;
      ReapedSaved(old(host.setup), host.setup, state.retired, retained, Some(Record(state.active, retained)));
      var _ :- SaveState(Record(state.active, retained));
      AllSeenBusyLater(run, trace, |old(trace)| - 1, retained);
      assert trace[|old(trace)| - 1] == old(host);
      KeptSince(trace, |old(trace)| - 1, old(host.setup), host.setup);
      return Ok(|retained|);
    }

    /** Puts the journaled texts back, the route before the image setting. */
    method Restore(j: Journal) returns (o: Outcome<()>)
      requires Valid() && host.setup.journal == Some(j)
      modifies `host, `trace, `faults
      ensures Valid() && old(trace) <= trace && Interrupted(old(host.setup), host.setup)
      ensures host.setup.state == old(host.setup.state)
      ensures o.Ok? ==> host.setup == old(host.setup).(caddy := Whole(j.caddy), loaded := j.caddy, env := Whole(j.env))
      ensures old(faults) <= faults && (o.Ok? || old(faults) < faults)
    {
      var _ :- WriteCaddy(j.caddy);
      var _ :- Reload();
      o := WriteEnv(j.env);
    }

    /** Undoes an interrupted switch. */
    method Recover() returns (o: Outcome<()>)
      requires Valid()
      modifies this
      ensures Valid() && old(trace) <= trace
      ensures old(host.setup.journal.None?) ==> o.Ok? && host == old(host)
      ensures old(host.setup.journal.Some?) ==>
        host.setup == Undone(old(host.setup)) || (!o.Ok? && Interrupted(old(host.setup), host.setup))
      ensures old(host.setup.journal.Some?) && host.setup != old(host.setup) ==>
        answered == old(answered) + [old(host.setup).journal.value.before.active]
      ensures old(faults) <= faults && (o.Ok? || old(faults) < faults)
      ensures o.Ok? && old(host.setup.journal.Some?) ==>
        var j := old(host.setup).journal.value;
        host.setup.state == Some(Record(j.before.active, j.before.retired + [j.candidate])) && host.setup.journal.None? &&
        host.setup.loaded == j.caddy && host.setup.caddy == Whole(j.caddy) && host.setup.env == Whole(j.env) &&
        host.setup.containers == old(host.setup.containers)
    {
      if host.setup.journal.None? {
        return Ok(());
      }
      var j := host.setup.journal.value;
      Holds();
      var ready :- Ready(j.before.active);
      if !ready {
        return Raised;
      }
      var _ :- Restore(j);
      var _ :- SaveState(UndoneRecord(j));
      o := UnlinkJournal();
    }

    /** Recovery started again and again, each time the process died or an error ended it. */
    method RecoverAgain(starts: nat) returns (o: Outcome<()>)
      requires Valid() && host.setup.journal.Some?
      modifies this
      ensures Valid() && old(trace) <= trace
      ensures o.Ok? ==> host.setup == Undone(old(host.setup))
      ensures host.setup == Undone(old(host.setup)) ||
        (host.setup.journal == old(host.setup.journal) && Undone(host.setup) == Undone(old(host.setup)))
      ensures old(faults) <= faults && (starts > 0 ==> o.Ok? || old(faults) < faults)
    {
      o := Raised;
      for i := 0 to starts
        invariant Valid() && old(trace) <= trace
        invariant old(faults) <= faults && (i > 0 ==> o.Ok? || old(faults) < faults)
        invariant o.Ok? ==> host.setup == Undone(old(host.setup))
        invariant host.setup == Undone(old(host.setup)) ||
          (host.setup.journal == old(host.setup.journal) && Undone(host.setup) == Undone(old(host.setup)))
      {
        o := Recover();
      }
    }

    /** The journaled half of a switch, up to its commit point. */
    method Move(j: Journal, image: string) returns (o: Outcome<()>)
      requires Valid() && host.setup.journal == Some(j)
      requires j.candidate in host.setup.containers && host.setup.containers[j.candidate].ref == image
      modifies `host, `trace, `faults
      ensures Valid() && old(trace) <= trace && host.setup.containers == old(host.setup.containers)
      ensures o.Ok? ==> host.setup.journal.None? && host.setup.state == Some(SwitchedRecord(j))
      ensures o.Ok? ==> ConfigOf(host.setup) == AfterConfig(j, image)
      ensures o.Raised? ==> host.setup.journal == Some(j)
      ensures host.setup.journal == Some(j) || (host.setup.journal.None? && ConfigOf(host.setup) == AfterConfig(j, image))
      ensures old(faults) <= faults && (o.Ok? || old(faults) < faults)
    {
      var _ :- WriteCaddy(SwitchedCaddy(j));
      var _ :- Reload();
      var _ :- WriteEnv(SetImage(j.env, image));
      var _ :- SaveState(SwitchedRecord(j));
      o := UnlinkJournal();
    }

    /** Starts the candidate and waits until it answers. */
    method Start(candidate: Name, image: string) returns (o: Outcome<()>)
      requires Valid() && host.setup.journal.None? && Startable(host.setup, candidate)
      modifies this
      ensures Valid() && old(trace) <= trace && Disposable(host, candidate)
      ensures host.setup == old(host.setup).(containers := host.setup.containers)
      ensures host.setup.containers - {candidate} == old(host.setup.containers)
      ensures o.Ok? ==> Up(host.setup, candidate) && host.setup.containers[candidate].ref == image
      ensures o.Ok? ==> answered == old(answered) + [candidate]
      ensures old(faults) <= faults && (o.Ok? || old(faults) < faults)
    {
      var _ :- DockerRun(candidate, image);
      var ready := false;
      var tries := 0;
      ghost var started := host.setup;
      while tries < 60 && !ready
        invariant Valid() && old(trace) <= trace && host.setup == started && Quiet(host, candidate)
        invariant old(faults) <= faults && (old(faults) == faults ==> Up(host.setup, candidate) && (tries > 0 ==> ready))
        invariant ready ==> Up(host.setup, candidate)
        invariant answered == old(answered) + if ready then [candidate] else []
      {
        ghost var was := host;
        var probe := Ready(candidate);
        DriftKeepsQuiet(was, host, candidate);
        ready :- probe;
        tries := tries + 1;
      }
      if !ready {
        return Raised;
      }
      ghost var was := host;
      o := Ask();
      DriftKeepsQuiet(was, host, candidate);
    }

    /** Starts the candidate, and moves the route, the image setting and the record to it. */
    method Switch(before: Record, candidate: Name, image: string) returns (o: Outcome<()>)
      requires Valid() && host.setup.journal.None? && host.setup.state == Some(before) && |before.retired| <= 1
      requires Startable(host.setup, candidate)
      requires forall n :: n in before.retired ==> n in host.setup.containers
      modifies this
      ensures Valid() && old(trace) <= trace
      ensures o.Ok? ==> host.setup.journal.None? && host.setup.state == Some(Record(candidate, before.retired + [before.active]))
      ensures o.Ok? ==> candidate in host.setup.containers && host.setup.containers[candidate].ref == image
      ensures o.Raised? && host.setup.journal.None? ==> Disposable(host, candidate)
      ensures Base(host.setup) == old(Base(host.setup)) || SwitchedTo(old(Base(host.setup)), host.setup, candidate, image)
      ensures !o.Raised? || Base(host.setup) == old(Base(host.setup))
      ensures o.Ok? || host.setup.journal.Some? ==> answered == old(answered) + [candidate]
      ensures old(faults) <= faults && (o.Ok? || old(faults) < faults || !Replaceable(old(Base(host.setup))))
      ensures o.Ok? ==> host.setup.containers - {candidate} == old(host.setup.containers)
    {
      Holds();
      var _ :- Start(candidate, image);
      Holds();
      var caddy, env := host.setup.caddy.text, host.setup.env.text;
      if RerouteCount(caddy, before.active) != 2 || SetImageCount(env) != 1 {
        return Raised;
      }
      var j := Journal(before, candidate, caddy, env);
      assert before.active in host.setup.containers - {candidate};
      ghost var was := host;
      var save := SaveJournal(j);
      if save.Raised? {
        DriftKeepsQuiet(was, host, candidate);
      }
      var _ :- save;
      o := Move(j, image);
    }

    /** Names the candidate after the image's id, unless the active server already runs it; runs the migrations. */
    method Choose(active: Name) returns (o: Outcome<Option<Name>>, ghost id: string)
      requires Valid()
      modifies `host, `trace, `faults
      ensures Valid() && old(trace) <= trace && host.setup == old(host.setup)
      ensures o.Ok? ==> active in host.setup.containers && (o.value.None? <==> host.setup.containers[active].image == id)
      ensures o.Ok? && o.value.Some? ==> o.value.value == CandidateName(id) && o.value.value !in host.setup.containers
      ensures old(faults) <= faults && (o.Ok? || old(faults) < faults || active !in host.setup.containers || CandidateName(id) in host.setup.containers)
    {
      var image: string := *;
      id := image;
      var _ :- Ask();
      var info :- Inspect(active);
      if info.image == image {
        return Ok(None), id;
      }
      var candidate := CandidateName(image);
      var _ :- Ask();
      var _ :- Ask();
      if candidate in host.setup.containers {
        return Raised, id;
      }
      return Ok(Some(candidate)), id;
    }

    /** After the commit: tell the old server to drain, and reap. A refused signal is only warned about; one that times out ends the call. */
    method Finish() returns (o: Outcome<Deployed>)
      requires Valid() && host.setup.journal.None? && host.setup.state.Some? && Up(host.setup, Active(host.setup))
      modifies `host, `trace, `faults
      ensures Valid() && old(trace) <= trace && host.setup.journal.None?
      ensures ConfigOf(host.setup) == old(ConfigOf(host.setup)) && Up(host.setup, Active(host.setup))
      ensures host.setup.containers[Active(host.setup)] == old(host.setup.containers[Active(host.setup)])
      ensures o.Ok? ==> o.value == Replaced(|Retired(host.setup)|) && KeptInUse(trace, |old(trace)| - 1)
      ensures old(faults) <= faults && (o.Ok? || old(faults) < faults || !AllThere(old(host.setup), old(Retired(host.setup))))
    {
      var signal := Ask();
      var timedOut: bool := *;
      if signal.Died? || (signal.Raised? && timedOut) {
        return if signal.Died? then Died else Raised;
      }
      Holds();
      ghost var from := |trace| - 1;
      var retained :- Reap(host.setup.state.value);
      KeptEarlier(trace, from, |old(trace)| - 1);
      return Ok(Replaced(retained));
    }

    /** The exception path: undo a journaled switch, or drop a candidate that was never routed to. */
    method CleanUp(candidate: Name) returns (o: Outcome<()>)
      requires Valid() && (host.setup.journal.None? ==> Disposable(host, candidate))
      modifies this
      ensures Valid() && old(trace) <= trace && Base(host.setup) == old(Base(host.setup))
      ensures o.Ok? && old(host.setup.journal.Some?) ==> host.setup == Undone(old(host.setup))
      ensures o.Ok? && old(host.setup.journal.None?) ==> candidate !in host.setup.containers
      ensures old(host.setup.journal.None?) ==> OnlyRetires(old(host.setup), host.setup, [candidate])
      ensures old(faults) <= faults && (o.Ok? || old(faults) < faults)
    {
      if host.setup.journal.Some? {
        o := Recover();
      } else {
        o := DockerRemove(candidate, true);
      }
    }

    /** The `--reap` invocation: `from` is the state its reaping starts in. */
    method ReapAll() returns (o: Outcome<nat>, ghost from: nat)
      requires Valid()
      modifies this
      ensures Valid() && old(trace) <= trace
      ensures o.Ok? ==> host.setup.journal.None? && host.setup.state.Some? && |Retired(host.setup)| == o.value
      ensures o.Ok? ==> |old(trace)| - 1 <= from < |trace| && Retired(trace[from].setup) == old(Latest(host.setup)).retired
      ensures o.Ok? ==> KeptInUse(trace, from)
      ensures Base(host.setup) == old(Base(host.setup))
      ensures old(faults) <= faults
      ensures old(faults) == faults ==> (o.Ok? <==> AllThere(old(host.setup), old(Latest(host.setup)).retired))
    {
      from := 0;
      var _ :- Recover();
      var state :- Current();
      from := |trace| - 1;
      o := Reap(state);
    }

    /** The candidate takes over and the retired servers are reaped, or everything is undone; `from` is the state of the commit. */
    method Replace(before: Record, candidate: Name, image: string) returns (o: Outcome<Deployed>, ghost from: nat)
      requires Valid() && host.setup.journal.None? && host.setup.state == Some(before) && |before.retired| <= 1
      requires Startable(host.setup, candidate) && AllThere(host.setup, before.retired)
      modifies this
      ensures Valid() && old(trace) <= trace
      ensures Base(host.setup) == old(Base(host.setup)) || SwitchedTo(old(Base(host.setup)), host.setup, candidate, image)
      ensures o.Ok? ==> host.setup.journal.None? && SwitchedTo(old(Base(host.setup)), host.setup, candidate, image)
      ensures o.Ok? ==> |old(trace)| - 1 <= from < |trace| && SwitchedTo(old(Base(host.setup)), trace[from].setup, candidate, image)
      ensures o.Ok? ==> Retired(trace[from].setup) == before.retired + [before.active] && KeptInUse(trace, from)
      ensures o.Ok? ==> o.value == Replaced(|Retired(host.setup)|)
      ensures old(faults) <= faults && (o.Ok? || old(faults) < faults || !Replaceable(old(Base(host.setup))))
    {
      from := 0;
      Holds();
      ghost var was := host.setup;
      var switch := Switch(before, candidate, image);
      if switch.Raised? {
        var _ :- CleanUp(candidate);
        return Raised, from;
      }
      var _ :- switch;
      from := |trace| - 1;
      StillThere(was, host.setup, candidate);
      o := Finish();
    }

    /**
    The `--image` invocation: `id` is the image's, and `from` the state in which
    the switch was committed. Without a fault it is refused for five reasons only.
    */
    method Deploy(image: string) returns (o: Outcome<Deployed>, ghost id: string, ghost from: nat)
      requires Valid()
      modifies this
      ensures Valid() && old(trace) <= trace
      ensures !ValidImage(image) ==> o.Raised? && host == old(host)
      ensures o.Ok? ==> host.setup.journal.None?
      ensures Base(host.setup) == old(Base(host.setup)) ||
        SwitchedTo(old(Base(host.setup)), host.setup, CandidateName(id), image)
      ensures o.Ok? && o.value.Replaced? ==> SwitchedTo(old(Base(host.setup)), host.setup, CandidateName(id), image)
      ensures o.Ok? && o.value.Replaced? ==>
        |old(trace)| - 1 <= from < |trace| && SwitchedTo(old(Base(host.setup)), trace[from].setup, CandidateName(id), image) &&
        old(Base(host.setup)).active in Retired(trace[from].setup) && KeptInUse(trace, from) &&
        |Retired(host.setup)| == o.value.retained
      ensures o == Ok(AlreadyCurrent) ==>
        Active(host.setup) in host.setup.containers && host.setup.containers[Active(host.setup)].image == id
      ensures old(faults) <= faults
      ensures old(faults) == faults && !o.Ok? ==>
        !ValidImage(image) || !AllThere(old(host.setup), old(Latest(host.setup)).retired) || |Retired(host.setup)| >= 2 ||
        CandidateName(id) in host.setup.containers || !Replaceable(old(Base(host.setup)))
    {
      id, from := "", 0;
      if !ValidImage(image) {
        return Raised, id, from;
      }
      var reaped;
      reaped, from := ReapAll();
      var draining :- reaped;
      if draining >= 2 {
        return Raised, id, from;
      }
      RetiredThere(trace, from);
      ActiveThere();
      var before := host.setup.state.value;
      var choice;
      choice, id := Choose(before.active);
      var pick :- choice;
      if pick.None? {
        return Ok(AlreadyCurrent), id, from;
      }
      CandidateIsOurs(id, host.setup.service);
      o, from := Replace(before, pick.value, image);
    }

    /** Any number of invocations, one after the other; the lock lets no two overlap. */
    method Operate(commands: seq<Command>)
      requires Valid() && trace[0].setup.journal.None?
      modifies this
      ensures Valid() && old(trace) <= trace
      ensures forall k :: 0 < k < |trace| ==> Lawful(trace[k - 1].setup, trace[k].setup) && Spares(trace[k - 1], trace[k])
      ensures forall i, k, n :: 0 <= i <= k < |trace| && n in Tracked(trace[i].setup) && Stays(trace, i, k, n) ==>
        n in Tracked(trace[k].setup)
      ensures forall k :: 0 <= k < |trace| ==> NoOutage(trace[k].setup) && FewTracked(trace[k].setup)
      ensures forall k :: 0 <= k < |trace| && trace[k].setup.journal.None? ==> HasOrigin(trace, ConfigOf(trace[k].setup), k)
    {
      for i := 0 to |commands|
        invariant Valid() && old(trace) <= trace
      {
        match commands[i] {
          case ReapOld => var _, _ := ReapAll();
          case DeployImage(image) => var _, _, _ := Deploy(image);
        }
      }
      forall k | 0 <= k < |trace|
        ensures NoOutage(trace[k].setup) && FewTracked(trace[k].setup)
        ensures k > 0 ==> Lawful(trace[k - 1].setup, trace[k].setup) && Spares(trace[k - 1], trace[k])
        ensures trace[k].setup.journal.None? ==> HasOrigin(trace, ConfigOf(trace[k].setup), k)
      {
        GoodRunAt(trace, k);
        RouteIsUp(trace[k].setup);
        AtMostThreeTracked(trace[k].setup);
        NeverMixed(trace, k);
      }
      forall i, k, n | 0 <= i <= k < |trace| && n in Tracked(trace[i].setup) && Stays(trace, i, k, n)
        ensures n in Tracked(trace[k].setup)
      {
        NeverForgotten(trace, i, k, n);
      }
    }
  }
}
