/**
The machine a server rollout acts on: the managed Caddyfile and `.env`, the
state and journal files, the route the proxy has loaded, and the containers
with their socket tables. Everything here is a value; `RolloutOps.dfy` holds
the program that changes it.
*/
module RolloutWorld {
  import opened Wrappers

  type Name = string

  const CANDIDATE_PREFIX := "paperboat-server-"

  /** Caddyfile text, cut at its `reverse_proxy <host>:8080` directives. */
  datatype CaddyPart = Text(text: string) | Upstream(host: Name)

  type Caddy = seq<CaddyPart>

  /** `.env` text, cut at its `PAPERBOAT_SERVER_IMAGE=<ref>` lines. */
  datatype EnvPart = OtherLines(text: string) | ServerImage(ref: string)

  type Env = seq<EnvPart>

  /** A file rewritten in place: between truncation and the last byte it holds neither text. */
  datatype File<+T> = Torn | Whole(text: T)

  /** A line of /proc/net/tcp: too short to read, or a local port and a socket state. */
  datatype Row = Short | Socket(port: string, state: string)

  /** A container's two socket tables. */
  datatype Tables = Tables(tcp: seq<Row>, tcp6: seq<Row>)

  datatype Container = Container(image: string, ref: string, running: bool)

  datatype Record = Record(active: Name, retired: seq<Name>)

  datatype Journal = Journal(before: Record, candidate: Name, caddy: Caddy, env: Env)

  /**
  The files, the loaded route and the containers. `service` is the name of the
  container that answers to the Compose alias `server`.
  */
  datatype Setup = Setup(
    service: Name, caddy: File<Caddy>, loaded: Caddy, env: File<Env>,
    state: Option<Record>, journal: Option<Journal>, containers: map<Name, Container>)

  /** The whole machine: a setup, and the sockets of its containers. */
  datatype World = World(setup: Setup, sockets: map<Name, Tables>)

  // ---- Sockets -------------------------------------------------------------

  predicate Listening(row: Row) {
    row.Socket? && row.state == "0A"
  }

  /** Neither listening (0A), nor waiting out an ended connection (06), nor closed (07). */
  predicate Established(row: Row) {
    row.Socket? && row.state !in {"0A", "06", "07"}
  }

  function ListenPorts(rows: seq<Row>): set<string> {
    set row | row in rows && Listening(row) :: row.port
  }

  function CountOn(rows: seq<Row>, ports: set<string>): nat {
    if rows == [] then 0
    else (if Established(rows[0]) && rows[0].port in ports then 1 else 0) + CountOn(rows[1..], ports)
  }

  function BodyRows(contents: seq<seq<Row>>): seq<Row> {
    if contents == [] then []
    else (if contents[0] == [] then [] else contents[0][1..]) + BodyRows(contents[1..])
  }

  /** Each content is one table with its header line. */
  function ConnectionCount(contents: seq<seq<Row>>): nat {
    var rows := BodyRows(contents);
    CountOn(rows, ListenPorts(rows))
  }

  /** What `cat` prints of a table. */
  function Printed(table: seq<Row>): seq<Row> {
    [Short] + table
  }

  predicate Connected(rows: seq<Row>, port: string) {
    exists row :: row in rows && Established(row) && row.port == port
  }

  function Table(c: Tables, six: bool): seq<Row> {
    if six then c.tcp6 else c.tcp
  }

  /** An accepted connection: an established socket on a port the same namespace listens on. */
  predicate Accepted(c: Tables, listenSix: bool, socketSix: bool, port: string) {
    port in ListenPorts(Table(c, listenSix)) && Connected(Table(c, socketSix), port)
  }

  predicate Busy(c: Tables) {
    exists l, s, port :: port in ListenPorts(Table(c, l)) && Accepted(c, l, s, port)
  }

  lemma {:induction false} CountOnZero(rows: seq<Row>, ports: set<string>)
    ensures CountOn(rows, ports) == 0 <==> forall j :: 0 <= j < |rows| ==> !(Established(rows[j]) && rows[j].port in ports)
  {
    if rows != [] {
      CountOnZero(rows[1..], ports);
      assert forall j :: 1 <= j < |rows| ==> rows[j] == rows[1..][j - 1];
    }
  }

  lemma TablesRead(c: Tables)
    ensures BodyRows([Printed(c.tcp), Printed(c.tcp6)]) == c.tcp + c.tcp6
  {
    var contents := [Printed(c.tcp), Printed(c.tcp6)];
    assert BodyRows(contents[1..][1..]) == [];
    assert BodyRows(contents[1..]) == c.tcp6;
  }

  lemma BusyJoined(c: Tables)
    ensures Busy(c) <==> exists port :: port in ListenPorts(c.tcp + c.tcp6) && Connected(c.tcp + c.tcp6, port)
  {
    var rows := c.tcp + c.tcp6;
    assert Table(c, false) == c.tcp && Table(c, true) == c.tcp6;
    forall port ensures (exists l, s :: Accepted(c, l, s, port)) <==> port in ListenPorts(rows) && Connected(rows, port) {
      assert port in ListenPorts(rows) <==> port in ListenPorts(c.tcp) || port in ListenPorts(c.tcp6);
      assert Connected(rows, port) <==> Connected(c.tcp, port) || Connected(c.tcp6, port);
      if port in ListenPorts(rows) && Connected(rows, port) {
        assert Accepted(c, port !in ListenPorts(c.tcp), !Connected(c.tcp, port), port);
      }
    }
    if Busy(c) {
      var l, s, port :| Accepted(c, l, s, port);
      assert Connected(rows, port);
    }
  }

  /** Every socket on a port that some socket listens on (0A) is itself listening, waiting out its end (06) or closed (07). */
  predicate OnlyEnded(rows: seq<Row>) {
    forall a, b :: a in rows && b in rows && a.Socket? && b.Socket? && a.state == "0A" && b.port == a.port ==>
      b.state == "0A" || b.state == "06" || b.state == "07"
  }

  /** The count read from a container's two tables is zero exactly when it holds no accepted connection. */
  lemma ConnectionCountDecidesBusy(c: Tables)
    ensures ConnectionCount([Printed(c.tcp), Printed(c.tcp6)]) == 0 <==> !Busy(c)
    ensures ConnectionCount([Printed(c.tcp), Printed(c.tcp6)]) == 0 <==> OnlyEnded(c.tcp + c.tcp6)
  {
    var rows := c.tcp + c.tcp6;
    TablesRead(c);
    BusyJoined(c);
    CountOnZero(rows, ListenPorts(rows));
    assert forall j :: 0 <= j < |rows| && Established(rows[j]) ==> Connected(rows, rows[j].port);
  }

  // ---- Routing and image settings --------------------------------------------

  predicate Managed(host: Name, active: Name) {
    host == "server" || host == active
  }

  /** The text `re.subn` gives for the Caddyfile, and how many directives it replaced. */
  function Reroute(c: Caddy, active: Name, to: Name): Caddy {
    if c == [] then []
    else [if c[0].Upstream? && Managed(c[0].host, active) then Upstream(to) else c[0]] + Reroute(c[1..], active, to)
  }

  function RerouteCount(c: Caddy, active: Name): nat {
    if c == [] then 0
    else (if c[0].Upstream? && Managed(c[0].host, active) then 1 else 0) + RerouteCount(c[1..], active)
  }

  function SetImage(e: Env, ref: string): Env {
    if e == [] then [] else [if e[0].ServerImage? then ServerImage(ref) else e[0]] + SetImage(e[1..], ref)
  }

  function SetImageCount(e: Env): nat {
    if e == [] then 0 else (if e[0].ServerImage? then 1 else 0) + SetImageCount(e[1..])
  }

  /** The hosts a managed server goes by: the Compose alias, the first container, and the candidates; others are left alone. */
  predicate Ours(host: Name, service: Name) {
    host == "server" || host == service || CANDIDATE_PREFIX <= host
  }

  /** Every server upstream of `c` leads to container `name`. */
  ghost predicate LeadsTo(c: Caddy, name: Name, service: Name) {
    forall p :: p in c && p.Upstream? && Ours(p.host, service) ==> p.host == name || (p.host == "server" && name == service)
  }

  ghost predicate NamesImage(e: Env, ref: string) {
    forall p :: p in e && p.ServerImage? ==> p.ref == ref
  }

  /** New connections reach `name` through the configuration the proxy has loaded. */
  predicate Routed(s: Setup, name: Name) {
    Upstream(name) in s.loaded || (Upstream("server") in s.loaded && name == s.service)
  }

  lemma {:induction false} RerouteLeads(c: Caddy, active: Name, to: Name, service: Name)
    requires LeadsTo(c, active, service)
    ensures LeadsTo(Reroute(c, active, to), to, service)
  {
    if c != [] {
      assert forall p :: p in c[1..] ==> p in c;
      RerouteLeads(c[1..], active, to, service);
      assert c[0] in c;
    }
  }

  lemma {:induction false} SetImageNames(e: Env, ref: string)
    ensures NamesImage(SetImage(e, ref), ref)
  {
    if e != [] {
      SetImageNames(e[1..], ref);
    }
  }

  lemma {:induction false} RerouteCountLast(c: Caddy, active: Name)
    requires c != []
    ensures RerouteCount(c, active) == RerouteCount(c[..|c| - 1], active) +
              if c[|c| - 1].Upstream? && Managed(c[|c| - 1].host, active) then 1 else 0
  {
    if |c| > 1 {
      RerouteCountLast(c[1..], active);
      assert c[1..][..|c| - 2] == c[..|c| - 1][1..];
    }
  }

  lemma {:induction false} SetImageCountLast(e: Env)
    requires e != []
    ensures SetImageCount(e) == SetImageCount(e[..|e| - 1]) + if e[|e| - 1].ServerImage? then 1 else 0
  {
    if |e| > 1 {
      SetImageCountLast(e[1..]);
      assert e[1..][..|e| - 2] == e[..|e| - 1][1..];
    }
  }

  /** The switch changes the two kinds of managed upstream and no other text. */
  lemma {:induction false} RerouteKeepsText(c: Caddy, active: Name, to: Name, k: nat)
    requires k < |c|
    ensures |Reroute(c, active, to)| == |c|
    ensures Reroute(c, active, to)[k] == if c[k] == Upstream("server") || c[k] == Upstream(active) then Upstream(to) else c[k]
  {
    if |c| > 1 {
      RerouteKeepsText(c[1..], active, to, if k == 0 then 0 else k - 1);
    }
  }

  lemma {:induction false} SetImageKeepsText(e: Env, ref: string, k: nat)
    requires k < |e|
    ensures |SetImage(e, ref)| == |e|
    ensures SetImage(e, ref)[k] == if e[k].ServerImage? then ServerImage(ref) else e[k]
  {
    if |e| > 1 {
      SetImageKeepsText(e[1..], ref, if k == 0 then 0 else k - 1);
    }
  }

  /** Exactly the counted places are managed upstreams, each once. */
  lemma {:induction false} RerouteCounts(c: Caddy, active: Name) returns (places: seq<nat>)
    ensures |places| == RerouteCount(c, active) && Rising(places, |c|)
    ensures forall k :: 0 <= k < |c| ==> (k in places <==> c[k] == Upstream("server") || c[k] == Upstream(active))
  {
    places := [];
    if c != [] {
      var n := |c| - 1;
      places := RerouteCounts(c[..n], active);
      RerouteCountLast(c, active);
      if c[n] == Upstream("server") || c[n] == Upstream(active) {
        places := places + [n];
      }
    }
  }

  lemma {:induction false} SetImageCounts(e: Env) returns (places: seq<nat>)
    ensures |places| == SetImageCount(e) && Rising(places, |e|)
    ensures forall k :: 0 <= k < |e| ==> (k in places <==> e[k].ServerImage?)
  {
    places := [];
    if e != [] {
      var n := |e| - 1;
      places := SetImageCounts(e[..n]);
      SetImageCountLast(e);
      if e[n].ServerImage? {
        places := places + [n];
      }
    }
  }

  // ---- The invariant -------------------------------------------------------------

  function Active(s: Setup): Name {
    if s.state.Some? then s.state.value.active else s.service
  }

  function Retired(s: Setup): seq<Name> {
    if s.state.Some? then s.state.value.retired else []
  }

  predicate Up(s: Setup, name: Name) {
    name in s.containers && s.containers[name].running
  }

  ghost predicate RecordOk(r: Record, most: nat, service: Name) {
    |r.retired| <= most && Distinct(r.retired) && r.active !in r.retired &&
    Ours(r.active, service) && forall n :: n in r.retired ==> Ours(n, service)
  }

  /** A server's routing, image setting and container agree. */
  ghost predicate Serves(s: Setup, caddy: Caddy, env: Env, name: Name) {
    Up(s, name) && LeadsTo(caddy, name, s.service) && NamesImage(env, s.containers[name].ref)
  }

  /** No rollout is in flight: the files and the loaded route belong to one server. */
  ghost predicate Settled(s: Setup) {
    s.caddy == Whole(s.loaded) && s.env.Whole? &&
    Serves(s, s.loaded, s.env.text, Active(s)) &&
    RecordOk(Record(Active(s), Retired(s)), 2, s.service)
  }

  /** The record of a completed switch and of an undone one. */
  function SwitchedRecord(j: Journal): Record {
    Record(j.candidate, j.before.retired + [j.before.active])
  }

  function UndoneRecord(j: Journal): Record {
    Record(j.before.active, j.before.retired + [j.candidate])
  }

  function SwitchedCaddy(j: Journal): Caddy {
    Reroute(j.caddy, j.before.active, j.candidate)
  }

  /** A switch is in flight; whatever the two rewritten files hold, the loaded route is one of two. */
  ghost predicate Switching(s: Setup, j: Journal) {
    Serves(s, j.caddy, j.env, j.before.active) && Up(s, j.candidate) &&
    RecordOk(j.before, 1, s.service) && Ours(j.candidate, s.service) && j.candidate != j.before.active && j.candidate !in j.before.retired &&
    RerouteCount(j.caddy, j.before.active) == 2 && SetImageCount(j.env) == 1 &&
    s.loaded in {j.caddy, SwitchedCaddy(j)} &&
    s.state.Some? && s.state.value in {j.before, SwitchedRecord(j), UndoneRecord(j)}
  }

  ghost predicate Inv(s: Setup) {
    "server" !in s.containers &&
    match s.journal
    case None => Settled(s)
    case Some(j) => Switching(s, j)
  }

  // ---- What every state and every step promises -------------------------------------

  /** The four places a switch rewrites. */
  datatype Config = Config(loaded: Caddy, caddy: File<Caddy>, env: File<Env>, active: Name)

  function ConfigOf(s: Setup): Config {
    Config(s.loaded, s.caddy, s.env, Active(s))
  }

  function BeforeConfig(j: Journal): Config {
    Config(j.caddy, Whole(j.caddy), Whole(j.env), j.before.active)
  }

  function AfterConfig(j: Journal, ref: string): Config {
    Config(SwitchedCaddy(j), Whole(SwitchedCaddy(j)), Whole(SetImage(j.env, ref)), j.candidate)
  }

  /** The configuration a state stands for: its own, or the one a switch in flight is still to be undone to. */
  function Base(s: Setup): Config {
    if s.journal.None? then ConfigOf(s) else BeforeConfig(s.journal.value)
  }

  /** A whole configuration switched to another container. */
  function SwitchedConfig(c: Config, to: Name, ref: string): Config
    requires c.env.Whole?
  {
    var caddy := Reroute(c.loaded, c.active, to);
    Config(caddy, Whole(caddy), Whole(SetImage(c.env.text, ref)), to)
  }

  /** The whole switch, or none of it: the four places change together, at the journal's end. */
  ghost predicate Atomic(a: Setup, b: Setup) {
    match (a.journal, b.journal)
    case (None, None) => ConfigOf(b) == ConfigOf(a)
    case (None, Some(j)) => ConfigOf(a) == ConfigOf(b) == BeforeConfig(j)
    case (Some(j), Some(k)) => j == k
    case (Some(j), None) =>
      ConfigOf(b) == BeforeConfig(j) ||
      (j.candidate in a.containers && ConfigOf(b) == AfterConfig(j, a.containers[j.candidate].ref))
  }

  /** The names the rollout keeps track of: the recorded servers and those of a journal. */
  function Tracked(s: Setup): set<Name> {
    {Active(s)} + (set n | n in Retired(s)) +
    (if s.journal.Some? then {s.journal.value.before.active, s.journal.value.candidate} + (set n | n in s.journal.value.before.retired) else {})
  }

  /** No container that is still there is forgotten. */
  ghost predicate KeepsTrack(a: Setup, b: Setup) {
    forall n :: n in Tracked(a) && n in b.containers ==> n in Tracked(b)
  }

  /** What a step does to files, route and records: a whole switch or none, and no server forgotten. */
  ghost predicate Lawful(a: Setup, b: Setup) {
    Atomic(a, b) && KeepsTrack(a, b)
  }

  function TablesOf(w: World, name: Name): Tables {
    if name in w.sockets then w.sockets[name] else Tables([], [])
  }

  /** `name` holds an accepted connection; a stopped container holds none. */
  predicate Live(w: World, name: Name) {
    Up(w.setup, name) && Busy(TablesOf(w, name))
  }

  /** A container that a step stops or removes was neither routed to nor holding a connection. */
  ghost predicate Spares(a: World, b: World) {
    forall n :: n in a.setup.containers && (n !in b.setup.containers || (Up(a.setup, n) && !Up(b.setup, n))) ==>
      !Routed(a.setup, n) && !Live(a, n)
  }

  /** A state of the run that keeps the invariant, reached by a lawful step that spares what is in use. */
  ghost predicate GoodAt(run: seq<World>, k: nat)
    requires k < |run|
  {
    Inv(run[k].setup) && (k > 0 ==> Lawful(run[k - 1].setup, run[k].setup) && Spares(run[k - 1], run[k]))
  }

  ghost predicate GoodRun(run: seq<World>) {
    forall k :: 0 <= k < |run| ==> GoodAt(run, k)
  }

  lemma GoodRunMore(run: seq<World>, next: World)
    requires GoodRun(run) && Inv(next.setup)
    requires run != [] ==> Lawful(run[|run| - 1].setup, next.setup) && Spares(run[|run| - 1], next)
    ensures GoodRun(run + [next])
  {
    var more := run + [next];
    forall k | 0 <= k < |more| ensures GoodAt(more, k) {
      if k < |run| {
        assert GoodAt(run, k);
      }
    }
  }

  lemma GoodRunAt(run: seq<World>, k: nat)
    requires GoodRun(run) && k < |run|
    ensures Inv(run[k].setup)
    ensures k > 0 ==> Lawful(run[k - 1].setup, run[k].setup) && Spares(run[k - 1], run[k])
  {
    assert GoodAt(run, k);
  }

  lemma RunIsAtomic(run: seq<World>, k: nat)
    requires GoodRun(run) && 0 < k < |run|
    ensures Atomic(run[k - 1].setup, run[k].setup)
  {
    GoodRunAt(run, k);
  }

  lemma RunKeepsTrack(run: seq<World>, k: nat)
    requires GoodRun(run) && 0 < k < |run|
    ensures KeepsTrack(run[k - 1].setup, run[k].setup)
  {
    GoodRunAt(run, k);
  }

  // ---- Bounds -------------------------------------------------------------------------

  lemma {:induction false} SetOfSeqSize(names: seq<Name>)
    ensures |set n | n in names| <= |names|
  {
    if names == [] {
      assert (set n | n in names) == {};
    } else {
      SetOfSeqSize(names[1..]);
      assert (set n | n in names) == {names[0]} + set n | n in names[1..];
    }
  }

  /** The tracked names, listed: three places at most. */
  ghost function TrackedList(s: Setup): seq<Name> {
    match s.journal
    case None => [Active(s)] + Retired(s)
    case Some(j) => [j.before.active, j.candidate] + j.before.retired
  }

  lemma TrackedListed(s: Setup)
    requires Inv(s)
    ensures Tracked(s) <= set n | n in TrackedList(s)
    ensures |TrackedList(s)| <= 3
  {
  }

  lemma RetiredBounded(s: Setup)
    requires Inv(s)
    ensures |Retired(s)| <= 2 && Distinct(Retired(s)) && Active(s) !in Retired(s)
    ensures s.journal.Some? ==> |s.journal.value.before.retired| <= 1
  {
  }

  lemma SubsetSize(a: set<Name>, b: set<Name>)
    requires a <= b
    ensures |a| <= |b|
  {
    assert b == a + (b - a);
  }

  lemma TrackedBounded(s: Setup)
    requires Inv(s)
    ensures |Tracked(s)| <= 3
  {
    TrackedListed(s);
    SubsetSize(Tracked(s), set n | n in TrackedList(s));
    SetOfSeqSize(TrackedList(s));
  }

  /** The bounds on the names a rollout keeps. */
  ghost predicate FewTracked(s: Setup) {
    |Retired(s)| <= 2 && Distinct(Retired(s)) && Active(s) !in Retired(s) &&
    (s.journal.Some? ==> |s.journal.value.before.retired| <= 1) && |Tracked(s)| <= 3
  }

  /** In every state the invariant allows, at most three server containers are tracked. */
  lemma AtMostThreeTracked(s: Setup)
    requires Inv(s)
    ensures FewTracked(s)
  {
    RetiredBounded(s);
    TrackedBounded(s);
  }

  /** The proxy routes to running servers only, as far as they are managed. */
  ghost predicate NoOutage(s: Setup) {
    forall h :: Upstream(h) in s.loaded && Ours(h, s.service) ==> Up(s, if h == "server" then s.service else h)
  }

  lemma RouteIsUp(s: Setup)
    requires Inv(s)
    ensures NoOutage(s)
  {
    match s.journal {
      case None =>
      case Some(j) => RerouteLeads(j.caddy, j.before.active, j.candidate, s.service);
    }
  }

  // ---- Whole runs ----------------------------------------------------------------------

  /** Step `m` of the run commits a switch whose outcome is `c`. */
  ghost predicate FromOneSwitch(run: seq<World>, m: nat, c: Config) {
    0 < m < |run| && run[m - 1].setup.journal.Some? && run[m].setup.journal.None? &&
    var j := run[m - 1].setup.journal.value;
    j.candidate in run[m - 1].setup.containers &&
    c == ConfigOf(run[m].setup) == AfterConfig(j, run[m - 1].setup.containers[j.candidate].ref)
  }

  /** A configuration comes from the start of the run, or from one whole switch in it. */
  ghost predicate HasOrigin(run: seq<World>, c: Config, k: nat)
    requires |run| > 0
  {
    c == ConfigOf(run[0].setup) || exists m :: 0 < m <= k && FromOneSwitch(run, m, c)
  }

  /** Over a whole run no configuration is ever mixed, whatever was interrupted on the way. */
  lemma {:induction false} NeverMixed(run: seq<World>, k: nat)
    requires GoodRun(run) && k < |run| && run[0].setup.journal.None?
    ensures run[k].setup.journal.None? ==> HasOrigin(run, ConfigOf(run[k].setup), k)
    ensures run[k].setup.journal.Some? ==> HasOrigin(run, BeforeConfig(run[k].setup.journal.value), k)
  {
    if k > 0 {
      NeverMixed(run, k - 1);
      RunIsAtomic(run, k);
      var a, b := run[k - 1].setup, run[k].setup;
      assert a.journal.Some? && b.journal.None? && ConfigOf(b) != BeforeConfig(a.journal.value) ==>
        FromOneSwitch(run, k, ConfigOf(b));
    }
  }

  /** Container `name` is there in every state from the `i`-th to the `k`-th. */
  ghost predicate Stays(run: seq<World>, i: nat, k: nat, name: Name) {
    forall m :: i <= m <= k && m < |run| ==> name in run[m].setup.containers
  }

  /** Over a whole run no server that was tracked once is forgotten while its container is there. */
  lemma {:induction false} NeverForgotten(run: seq<World>, i: nat, k: nat, name: Name)
    requires GoodRun(run) && i <= k < |run| && name in Tracked(run[i].setup) && Stays(run, i, k, name)
    ensures name in Tracked(run[k].setup)
  {
    if i < k {
      NeverForgotten(run, i, k - 1, name);
      RunKeepsTrack(run, k);
    }
  }

  // ---- The environment ------------------------------------------------------------------

  predicate NothingNew(a: Tables, b: Tables) {
    forall l, s, port :: port in ListenPorts(Table(b, l)) && Accepted(b, l, s, port) ==> Accepted(a, l, s, port)
  }

  /** `name` takes no new connection and holds none. */
  predicate Quiet(w: World, name: Name) {
    !Routed(w.setup, name) && !Live(w, name)
  }

  /**
  Time passing between two steps. Connections come and go, but only a container
  the loaded route names accepts new ones; containers do not stop on their own.
  */
  predicate Drift(a: World, b: World) {
    b.setup == a.setup &&
    forall n :: n in a.setup.containers && !Routed(a.setup, n) ==> NothingNew(TablesOf(a, n), TablesOf(b, n))
  }

  lemma DriftKeepsQuiet(a: World, b: World, name: Name)
    requires Drift(a, b) && Quiet(a, name)
    ensures Quiet(b, name)
  {
  }

  /**
  The two tables are read one after the other. When `name` takes no new
  connection, a zero count over the two readings still means it holds none by
  the time the second is taken.
  */
  lemma StaggeredCount(a: World, b: World, name: Name)
    requires Drift(a, b) && name in a.setup.containers && !Routed(a.setup, name)
    requires ConnectionCount([Printed(TablesOf(a, name).tcp), Printed(TablesOf(b, name).tcp6)]) == 0
    ensures Quiet(b, name)
  {
    var c, d := TablesOf(a, name), TablesOf(b, name);
    var mixed := d.(tcp := c.tcp);
    ConnectionCountDecidesBusy(mixed);
    if Busy(d) {
      var l, s, port :| port in ListenPorts(Table(d, l)) && Accepted(d, l, s, port);
      assert Accepted(c, l, s, port);
      assert Accepted(mixed, l, s, port);
    }
  }

  /** With no rollout in flight, no managed container but the active one is routed to. */
  lemma OnlyActiveRouted(s: Setup, name: Name)
    requires Inv(s) && s.journal.None? && name != Active(s) && name != "server" && Ours(name, s.service)
    ensures !Routed(s, name)
  {
  }
}
