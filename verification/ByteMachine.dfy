/**
  The pair of trackers as the code sees it: directories of named bytes, edits of files, and lockstep transfers. In
  every run with proper arguments it does what the model of typed files does, so the model's results are about bytes.
 */
module ByteMachine {
  import opened Store
  import opened Handlers
  import opened Names
  import opened Replication
  import opened Directory
  import opened Scripts
  import opened ByteRuns
  import opened WholeFilePush
  import LockstepSync

  /******* Reading a directory *******/

  ghost predicate Stores(dir: Directory, d: Disk) {
    Tidy(d) && DistinctNames(d) && DirOf(d) == dir
  }

  ghost predicate Readable(dir: Directory) {
    exists d :: Stores(dir, d)
  }

  /** The records a readable directory holds. */
  ghost function DiskOf(dir: Directory): Disk
    requires Readable(dir)
  {
    var d :| Stores(dir, d);
    d
  }

  lemma ReadBack(dir: Directory, d: Disk)
    requires Stores(dir, d)
    ensures Readable(dir) && DiskOf(dir) == d
  {
    DirectoryDeterminesDisk(d, DiskOf(dir));
  }

  function OpenedBytes(dir: Directory, p: Path): Directory {
    if FileName(p) in dir then dir else dir[FileName(p) := ""]
  }

  /** Loading creates the four base files that are missing. */
  function WithBaseBytes(dir: Directory): Directory {
    OpenedBytes(OpenedBytes(OpenedBytes(OpenedBytes(dir, Credentials), Online), Groups), Pending)
  }

  lemma OpenedStores(dir: Directory, d: Disk, p: Path)
    requires Stores(dir, d) && p in BASE
    ensures Stores(OpenedBytes(dir, p), Opened(d, p))
  {
    if p in d {
      DirAt(d, p);
    } else {
      DirLacks(d, p);
      TidyUpdate(d, p, []);
      ReplaceBytes(d, p, []);
    }
  }

  lemma BaseStores(dir: Directory, d: Disk)
    requires Stores(dir, d)
    ensures Stores(WithBaseBytes(dir), WithBase(d))
  {
    var dir1, d1 := OpenedBytes(dir, Credentials), Opened(d, Credentials);
    OpenedStores(dir, d, Credentials);
    OpenedStores(dir1, d1, Online);
    OpenedStores(OpenedBytes(dir1, Online), Opened(d1, Online), Groups);
    OpenedStores(OpenedBytes(OpenedBytes(dir1, Online), Groups), Opened(Opened(d1, Online), Groups), Pending);
  }

  /******* The machine *******/

  /** A tracker process and its directory. */
  datatype Host = Host(up: bool, dir: Directory, cache: Cache)

  type Hosts = b: seq<Host> | |b| == 2
    witness [Host(true, map[], Load(map[])), Host(true, map[], Load(map[]))]

  /** The transfers an event causes: of a command, of the files it pushes; of a restart, of those in `order`. */
  datatype Transfers = Transfers(order: seq<Path>, runs: seq<seq<LockstepSync.Step>>)

  /** A tracker serves a command: it edits its files and pushes those it names to the other, if that is up. */
  ghost predicate Serves(h: PasswordHash, own: Host, other: Host, cmd: Command, t: Transfers, own': Host, other': Host) {
    && own.up && Readable(own.dir)
    && var s := State(DiskOf(own.dir), own.cache);
       var o, dir := Step(h, s, cmd), AllOnBytes(own.dir, Edits(h, s, cmd));
       && own' == Host(true, dir, o.state.cache)
       && (if other.up then
             && Pushes(dir, NamesOf(o.pushed), t.runs)
             && other' == other.(dir := Receive(dir, other.dir, NamesOf(o.pushed), t.runs))
           else other' == other)
  }

  /** A tracker comes back: it loads what it has, and of the other's files those in `landed` arrive. */
  ghost predicate Rejoins(own: Host, other: Host, landed: set<Path>, t: Transfers, own': Host, other': Host) {
    && !own.up && other.up && Readable(own.dir) && Readable(other.dir)
    && (forall p :: p in t.order <==> p in DiskOf(other.dir) && p in landed)
    && Pushes(other.dir, NamesOf(t.order), t.runs)
    && own' == Host(true, Receive(other.dir, WithBaseBytes(own.dir), NamesOf(t.order), t.runs), Load(DiskOf(own.dir)))
    && other' == other
  }

  ghost predicate Occurs(h: PasswordHash, b: Hosts, e: Event, t: Transfers, b': Hosts) {
    e.at < 2 &&
    var sib := Sibling(e.at);
    match e
    case Run(at, cmd) => Serves(h, b[at], b[sib], cmd, t, b'[at], b'[sib])
    case Crash(at) => b[at].up && b[sib].up && b'[at] == b[at].(up := false) && b'[sib] == b[sib]
    case Restart(at, landed) => Rejoins(b[at], b[sib], landed, t, b'[at], b'[sib])
  }

  /******* Simulation *******/

  ghost predicate Mirrors(host: Host, node: Node) {
    host.up == node.up && host.cache == node.state.cache && Stores(host.dir, node.state.disk)
  }

  /** Each host holds the directory and the caches of the model's tracker. */
  ghost predicate Image(b: Hosts, n: Cluster) {
    forall i :: 0 <= i < 2 ==> Mirrors(b[i], n[i])
  }

  lemma ImageOf(b: Hosts, n: Cluster, at: nat)
    requires at < 2 && Mirrors(b[at], n[at]) && Mirrors(b[Sibling(at)], n[Sibling(at)])
    ensures Image(b, n)
  {
  }

  /** A tracker's files after a command and those of its sibling after the pushes. */
  lemma {:induction false} ServedStores(h: PasswordHash, s: State, dir: Directory, cmd: Command, o: Outcome)
    requires Stores(dir, s.disk) && BASE <= s.disk.Keys && Proper(cmd) && TokenHash(h) && o == Step(h, s, cmd)
    ensures Stores(AllOnBytes(dir, Edits(h, s, cmd)), o.state.disk)
    ensures forall p :: p in o.pushed ==> p in o.state.disk
  {
    StepOnBytes(h, s, cmd);
    StepTouches(h, s, cmd);
  }

  lemma {:induction false} PushedStores(src: Directory, d: Disk, dst: Directory, e: Disk, paths: seq<Path>,
                                        runs: seq<seq<LockstepSync.Step>>)
    requires Stores(src, d) && Stores(dst, e) && (forall p :: p in paths ==> p in d) && Pushes(src, NamesOf(paths), runs)
    ensures Stores(Receive(src, dst, NamesOf(paths), runs), Push(d, e, paths))
  {
    PushTidy(d, e, paths);
    PushIsLockstep(d, e, paths, runs);
  }

  lemma {:induction false} ServeMirrors(h: PasswordHash, own: Host, other: Host, cmd: Command, t: Transfers,
                                        own': Host, other': Host, s: State, e: Disk, o: Outcome)
    requires Serves(h, own, other, cmd, t, own', other') && own.cache == s.cache && o == Step(h, s, cmd)
    requires Stores(own.dir, s.disk) && Stores(other.dir, e) && BASE <= s.disk.Keys && Proper(cmd) && TokenHash(h)
    ensures own' == Host(true, own'.dir, o.state.cache) && Stores(own'.dir, o.state.disk)
    ensures other' == other.(dir := other'.dir)
    ensures Stores(other'.dir, if other.up then Push(o.state.disk, e, o.pushed) else e)
  {
    var dir := AllOnBytes(own.dir, Edits(h, s, cmd));
    ReadBack(own.dir, s.disk);
    ServedStores(h, s, own.dir, cmd, o);
    if other.up {
      PushedStores(dir, o.state.disk, other.dir, e, o.pushed, t.runs);
    }
  }

  lemma ServeSimulates(h: PasswordHash, b: Hosts, at: nat, cmd: Command, t: Transfers, b': Hosts, n: Cluster)
    requires Image(b, n) && Orderly(n) && Proper(cmd) && TokenHash(h) && Occurs(h, b, Run(at, cmd), t, b')
    ensures Enabled(n, Run(at, cmd)) && Image(b', Apply(h, n, Run(at, cmd)))
  {
    var sib, o := Sibling(at), Step(h, n[at].state, cmd);
    assert Mirrors(b[at], n[at]) && Mirrors(b[sib], n[sib]);
    ServeMirrors(h, b[at], b[sib], cmd, t, b'[at], b'[sib], n[at].state, n[sib].state.disk, o);
    RunShape(h, n, at, cmd, o);
    ImageOf(b', Apply(h, n, Run(at, cmd)), at);
  }

  lemma RejoinMirrors(own: Host, other: Host, landed: set<Path>, t: Transfers, own': Host, other': Host, d: Disk, e: Disk)
    requires Rejoins(own, other, landed, t, own', other') && Stores(own.dir, d) && Stores(other.dir, e)
    ensures own' == Host(true, own'.dir, Load(d)) && other' == other
    ensures Stores(own'.dir, CatchUp(WithBase(d), e, landed))
  {
    ReadBack(own.dir, d);
    ReadBack(other.dir, e);
    BaseStores(own.dir, d);
    PushedStores(other.dir, e, WithBaseBytes(own.dir), WithBase(d), t.order, t.runs);
    CatchUpIsPush(WithBase(d), e, landed, t.order);
  }

  lemma RejoinSimulates(h: PasswordHash, b: Hosts, at: nat, landed: set<Path>, t: Transfers, b': Hosts, n: Cluster)
    requires Image(b, n) && Occurs(h, b, Restart(at, landed), t, b')
    ensures Enabled(n, Restart(at, landed)) && Image(b', Apply(h, n, Restart(at, landed)))
  {
    var sib := Sibling(at);
    assert Mirrors(b[at], n[at]) && Mirrors(b[sib], n[sib]);
    RejoinMirrors(b[at], b[sib], landed, t, b'[at], b'[sib], n[at].state.disk, n[sib].state.disk);
    ImageOf(b', Apply(h, n, Restart(at, landed)), at);
  }

  lemma CrashSimulates(h: PasswordHash, b: Hosts, at: nat, t: Transfers, b': Hosts, n: Cluster)
    requires Image(b, n) && Occurs(h, b, Crash(at), t, b')
    ensures Enabled(n, Crash(at)) && Image(b', Apply(h, n, Crash(at)))
  {
    assert Mirrors(b[at], n[at]) && Mirrors(b[Sibling(at)], n[Sibling(at)]);
    ImageOf(b', Apply(h, n, Crash(at)), at);
  }

  /** What happens to the bytes is what happens in the model. */
  lemma EventSimulates(h: PasswordHash, b: Hosts, e: Event, t: Transfers, b': Hosts, n: Cluster)
    requires Image(b, n) && Orderly(n) && TokenHash(h) && (e.Run? ==> Proper(e.cmd)) && Occurs(h, b, e, t, b')
    ensures Enabled(n, e) && Image(b', Apply(h, n, e))
  {
    match e
    case Run(at, cmd) => ServeSimulates(h, b, at, cmd, t, b', n);
    case Crash(at) => CrashSimulates(h, b, at, t, b', n);
    case Restart(at, landed) => RejoinSimulates(h, b, at, landed, t, b', n);
  }

  /******* Runs *******/

  /** A run of the machine: the hosts before and after every event, with its transfers. */
  ghost predicate Trace(h: PasswordHash, bs: seq<Hosts>, events: seq<Event>, ts: seq<Transfers>) {
    && |bs| == |events| + 1 && |ts| == |events|
    && forall k :: 0 <= k < |events| ==> Occurs(h, bs[k], events[k], ts[k], bs[k + 1])
  }

  /** Both trackers up means equal directories. */
  ghost predicate Level(b: Hosts) {
    b[0].up && b[1].up ==> b[0].dir == b[1].dir
  }

  ghost predicate AlwaysLevel(bs: seq<Hosts>) {
    forall k :: 0 <= k < |bs| ==> Level(bs[k])
  }

  lemma TraceRest(h: PasswordHash, bs: seq<Hosts>, events: seq<Event>, ts: seq<Transfers>)
    requires Trace(h, bs, events, ts) && events != []
    ensures Trace(h, bs[1..], events[1..], ts[1..]) && Occurs(h, bs[0], events[0], ts[0], bs[1])
    ensures AlwaysLevel(bs) <==> Level(bs[0]) && AlwaysLevel(bs[1..])
  {
    forall k | 0 <= k < |events[1..]| ensures Occurs(h, bs[1..][k], events[1..][k], ts[1..][k], bs[1..][k + 1]) {
      assert Occurs(h, bs[k + 1], events[k + 1], ts[k + 1], bs[k + 2]);
    }
    if Level(bs[0]) && AlwaysLevel(bs[1..]) {
      forall k | 0 <= k < |bs| ensures Level(bs[k]) {
        assert k > 0 ==> bs[k] == bs[1..][k - 1];
      }
    }
  }

  lemma LevelExactly(b: Hosts, n: Cluster)
    requires Image(b, n)
    ensures Level(b) <==> (n[0].up && n[1].up ==> n[0].state.disk == n[1].state.disk)
  {
    DirectoryDeterminesDisk(n[0].state.disk, n[1].state.disk);
  }

  lemma SameDisksSameLevel(b: Hosts, n: Cluster)
    requires Mirrors(b[0], n[0]) && Mirrors(b[1], n[1])
    requires n[0].up && n[1].up ==> n[0].state.disk == n[1].state.disk
    ensures Level(b)
  {
  }

  lemma LevelReplicated(b: Hosts, n: Cluster)
    requires Image(b, n) && Replicated(n)
    ensures Level(b)
  {
    if n[0].up && n[1].up {
      SameDisks(n, 0, 1);
    }
    SameDisksSameLevel(b, n);
  }

  lemma RestartLevelExactly(h: PasswordHash, n: Cluster, at: nat, landed: set<Path>)
    requires Replicated(n) && Enabled(n, Restart(at, landed))
    ensures var n' := Apply(h, n, Restart(at, landed));
            n'[0].up && n'[1].up && (n'[0].state.disk == n'[1].state.disk <==> Behind(n, at) <= landed)
  {
    CatchUpEqualizes(WithBase(n[at].state.disk), n[Sibling(at)].state.disk, landed);
  }

  /** One event of a replicated pair leaves the directories level exactly when it lands. */
  lemma EventLevelExactly(h: PasswordHash, n: Cluster, e: Event, b': Hosts)
    requires Replicated(n) && Enabled(n, e) && Image(b', Apply(h, n, e))
    ensures Level(b') <==> Lands(n, e)
  {
    LevelExactly(b', Apply(h, n, e));
    EventReplicated(h, n, e);
    if e.Restart? {
      RestartLevelExactly(h, n, e.at, e.landed);
    }
  }

  lemma EventMirrored(h: PasswordHash, b: Hosts, e: Event, t: Transfers, b': Hosts, n: Cluster)
    requires Image(b, n) && Orderly(n) && Replicated(n)
    requires TokenHash(h) && (e.Run? ==> Proper(e.cmd)) && Occurs(h, b, e, t, b')
    ensures Enabled(n, e) && Image(b', Apply(h, n, e)) && (Level(b') <==> Lands(n, e))
    ensures Lands(n, e) ==> Replicated(Apply(h, n, e)) && Orderly(Apply(h, n, e))
  {
    EventSimulates(h, b, e, t, b', n);
    EventLevelExactly(h, n, e, b');
    EventReplicated(h, n, e);
    EventOrderly(h, n, e);
  }

  /** A run of the machine is a run of the model, whose disks its directories hold at the end. */
  lemma {:induction false} TraceSimulates(h: PasswordHash, n: Cluster, bs: seq<Hosts>, events: seq<Event>,
                                          ts: seq<Transfers>)
    requires Trace(h, bs, events, ts) && Image(bs[0], n) && Orderly(n) && TokenHash(h) && AllProper(events)
    ensures ValidRun(h, n, events) && Image(bs[|events|], Final(h, n, events))
    decreases |events|
  {
    if events != [] {
      TraceRest(h, bs, events, ts);
      EventSimulates(h, bs[0], events[0], ts[0], bs[1], n);
      EventOrderly(h, n, events[0]);
      TraceSimulates(h, Apply(h, n, events[0]), bs[1..], events[1..], ts[1..]);
    }
  }

  lemma {:induction false} AllLandFirst(h: PasswordHash, n: Cluster, events: seq<Event>)
    requires ValidRun(h, n, events) && events != []
    ensures ValidRun(h, Apply(h, n, events[0]), events[1..])
    ensures AllLand(h, n, events) <==> Lands(n, events[0]) && AllLand(h, Apply(h, n, events[0]), events[1..])
  {
  }

  lemma LevelAtStart(bs: seq<Hosts>)
    requires |bs| == 1 && Level(bs[0])
    ensures AlwaysLevel(bs)
  {
  }

  lemma NotLevel(bs: seq<Hosts>, k: nat)
    requires k < |bs| && !Level(bs[k])
    ensures !AlwaysLevel(bs)
  {
  }

  /** The first event of a trace: either it does not land and shows, or the rest decides. */
  lemma {:induction false} TraceFirst(h: PasswordHash, n: Cluster, bs: seq<Hosts>, events: seq<Event>, ts: seq<Transfers>)
    requires Trace(h, bs, events, ts) && events != [] && Image(bs[0], n) && Orderly(n) && Replicated(n)
    requires TokenHash(h) && AllProper(events)
    ensures Enabled(n, events[0])
    ensures Trace(h, bs[1..], events[1..], ts[1..]) && AllProper(events[1..])
    ensures !Lands(n, events[0]) ==> !AlwaysLevel(bs)
    ensures Lands(n, events[0]) ==>
            var next := Apply(h, n, events[0]);
            && Image(bs[1..][0], next) && Orderly(next) && Replicated(next)
            && (AlwaysLevel(bs) <==> AlwaysLevel(bs[1..]))
  {
    LevelReplicated(bs[0], n);
    TraceRest(h, bs, events, ts);
    EventMirrored(h, bs[0], events[0], ts[0], bs[1], n);
    if !Lands(n, events[0]) {
      NotLevel(bs, 1);
    }
  }

  lemma {:induction false} TraceLevelExactly(h: PasswordHash, n: Cluster, bs: seq<Hosts>, events: seq<Event>,
                                             ts: seq<Transfers>)
    requires Trace(h, bs, events, ts) && Image(bs[0], n) && Orderly(n) && Replicated(n)
    requires TokenHash(h) && AllProper(events) && ValidRun(h, n, events)
    ensures AlwaysLevel(bs) <==> AllLand(h, n, events)
    decreases |events|
  {
    if events == [] {
      LevelReplicated(bs[0], n);
      LevelAtStart(bs);
    } else {
      TraceFirst(h, n, bs, events, ts);
      AllLandFirst(h, n, events);
      if Lands(n, events[0]) {
        TraceLevelExactly(h, Apply(h, n, events[0]), bs[1..], events[1..], ts[1..]);
      }
    }
  }

  /** Tracker 0 with its four empty base files, and tracker 1 that has not been started. */
  function Begin(): Hosts {
    [Host(true, WithBaseBytes(map[]), Load(map[])), Host(false, map[], Load(map[]))]
  }

  lemma EmptyStores()
    ensures Stores(map[], map[])
  {
    SameDirectory(map[], map[]);
  }

  lemma BeginImage()
    ensures Image(Begin(), Init())
  {
    EmptyStores();
    BaseStores(map[], map[]);
  }

  lemma InitReplicated()
    ensures Replicated(Init())
  {
  }

  lemma {:induction false} LevelFrom(h: PasswordHash, n: Cluster, bs: seq<Hosts>, events: seq<Event>, ts: seq<Transfers>)
    requires Trace(h, bs, events, ts) && Image(bs[0], n) && Orderly(n) && Replicated(n)
    requires TokenHash(h) && AllProper(events)
    ensures ValidRun(h, n, events) && Image(bs[|events|], Final(h, n, events))
    ensures AlwaysLevel(bs) <==> AllLand(h, n, events)
  {
    TraceSimulates(h, n, bs, events, ts);
    TraceLevelExactly(h, n, bs, events, ts);
  }

  /**
    Two directories under edits of named files and lockstep transfers, with proper arguments: what they hold at the
    end is what the model's disks hold, and the two are equal whenever both trackers are up exactly when every
    restart receives what it is behind on.
   */
  lemma {:induction false} DirectoriesStayLevel(h: PasswordHash, bs: seq<Hosts>, events: seq<Event>, ts: seq<Transfers>)
    requires TokenHash(h) && AllProper(events) && Trace(h, bs, events, ts) && bs[0] == Begin()
    ensures ValidRun(h, Init(), events) && Image(bs[|events|], Final(h, Init(), events))
    ensures AlwaysLevel(bs) <==> AllLand(h, Init(), events)
  {
    BeginImage();
    InitOrderly();
    InitReplicated();
    LevelFrom(h, Init(), bs, events, ts);
  }

  /******* The machine does not get stuck *******/

  lemma PushesSnoc(dir: Directory, names: seq<string>, runs: seq<seq<LockstepSync.Step>>, name: string,
                   run: seq<LockstepSync.Step>)
    requires Pushes(dir, names, runs) && name in dir && FinishedPush(dir[name], run)
    ensures Pushes(dir, names + [name], runs + [run])
  {
  }

  lemma NamesSnoc(paths: seq<Path>)
    requires paths != []
    ensures NamesOf(paths) == NamesOf(paths[..|paths| - 1]) + [FileName(paths[|paths| - 1])]
  {
  }

  lemma {:induction false} TransfersExist(d: Disk, dir: Directory, paths: seq<Path>)
    returns (runs: seq<seq<LockstepSync.Step>>)
    requires forall p :: p in paths ==> p in d && HasBytes(dir, d, p)
    ensures Pushes(dir, NamesOf(paths), runs)
    decreases |paths|
  {
    runs := [];
    if paths != [] {
      var init, p := paths[..|paths| - 1], paths[|paths| - 1];
      var earlier := TransfersExist(d, dir, init);
      var last := PushCanFinish(d[p]);
      assert HasBytes(dir, d, p);
      PushesSnoc(dir, NamesOf(init), earlier, FileName(p), last);
      NamesSnoc(paths);
      runs := earlier + [last];
    }
  }

  lemma StoredTransfers(d: Disk, dir: Directory, paths: seq<Path>) returns (runs: seq<seq<LockstepSync.Step>>)
    requires Stores(dir, d) && forall p :: p in paths ==> p in d
    ensures Pushes(dir, NamesOf(paths), runs)
  {
    forall p | p in paths ensures HasBytes(dir, d, p) {
      DirAt(d, p);
    }
    runs := TransfersExist(d, dir, paths);
  }

  lemma {:induction false} Listing(s: set<Path>) returns (order: seq<Path>)
    ensures forall p :: p in order <==> p in s
    decreases |s|
  {
    order := [];
    if s != {} {
      var p :| p in s;
      var rest := Listing(s - {p});
      order := [p] + rest;
    }
  }

  lemma CanServe(h: PasswordHash, own: Host, other: Host, cmd: Command, s: State)
    returns (t: Transfers, own': Host, other': Host)
    requires own.up && own.cache == s.cache && Stores(own.dir, s.disk) && BASE <= s.disk.Keys
    requires Proper(cmd) && TokenHash(h)
    ensures Serves(h, own, other, cmd, t, own', other')
  {
    var o, dir := Step(h, s, cmd), AllOnBytes(own.dir, Edits(h, s, cmd));
    ReadBack(own.dir, s.disk);
    ServedStores(h, s, own.dir, cmd, o);
    var runs := StoredTransfers(o.state.disk, dir, o.pushed);
    t := Transfers([], runs);
    own' := Host(true, dir, o.state.cache);
    other' := if other.up then other.(dir := Receive(dir, other.dir, NamesOf(o.pushed), runs)) else other;
  }

  function Placed(at: nat, own: Host, other: Host): Hosts {
    if at == 0 then [own, other] else [other, own]
  }

  lemma PlacedAt(at: nat, own: Host, other: Host)
    requires at < 2
    ensures Placed(at, own, other)[at] == own && Placed(at, own, other)[Sibling(at)] == other
  {
  }

  lemma ServeCanOccur(h: PasswordHash, b: Hosts, at: nat, cmd: Command, n: Cluster) returns (t: Transfers, b': Hosts)
    requires Image(b, n) && Orderly(n) && Enabled(n, Run(at, cmd)) && Proper(cmd) && TokenHash(h)
    ensures Occurs(h, b, Run(at, cmd), t, b')
  {
    assert Mirrors(b[at], n[at]);
    var own', other';
    t, own', other' := CanServe(h, b[at], b[Sibling(at)], cmd, n[at].state);
    b' := Placed(at, own', other');
    PlacedAt(at, own', other');
  }

  lemma CrashCanOccur(h: PasswordHash, b: Hosts, at: nat, n: Cluster) returns (t: Transfers, b': Hosts)
    requires Image(b, n) && Enabled(n, Crash(at))
    ensures Occurs(h, b, Crash(at), t, b')
  {
    assert Mirrors(b[at], n[at]) && Mirrors(b[Sibling(at)], n[Sibling(at)]);
    t, b' := Transfers([], []), b[at := b[at].(up := false)];
  }

  lemma CanRejoin(own: Host, other: Host, landed: set<Path>, d: Disk, e: Disk) returns (t: Transfers, own': Host)
    requires !own.up && other.up && Stores(own.dir, d) && Stores(other.dir, e)
    ensures Rejoins(own, other, landed, t, own', other)
  {
    ReadBack(own.dir, d);
    ReadBack(other.dir, e);
    var order := Listing(e.Keys * landed);
    var runs := StoredTransfers(e, other.dir, order);
    t := Transfers(order, runs);
    own' := Host(true, Receive(other.dir, WithBaseBytes(own.dir), NamesOf(order), runs), Load(d));
  }

  lemma RejoinCanOccur(h: PasswordHash, b: Hosts, at: nat, landed: set<Path>, n: Cluster) returns (t: Transfers, b': Hosts)
    requires Image(b, n) && Enabled(n, Restart(at, landed))
    ensures Occurs(h, b, Restart(at, landed), t, b')
  {
    var other := b[Sibling(at)];
    assert Mirrors(b[at], n[at]) && Mirrors(other, n[Sibling(at)]);
    var own';
    t, own' := CanRejoin(b[at], other, landed, n[at].state.disk, n[Sibling(at)].state.disk);
    b' := Placed(at, own', other);
    PlacedAt(at, own', other);
  }

  /** Whatever the model's pair can do, the machine in its image can do, with some transfers. */
  lemma EventCanOccur(h: PasswordHash, b: Hosts, e: Event, n: Cluster) returns (t: Transfers, b': Hosts)
    requires Image(b, n) && Orderly(n) && Enabled(n, e) && TokenHash(h) && (e.Run? ==> Proper(e.cmd))
    ensures Occurs(h, b, e, t, b')
  {
    match e
    case Run(at, cmd) => t, b' := ServeCanOccur(h, b, at, cmd, n);
    case Crash(at) => t, b' := CrashCanOccur(h, b, at, n);
    case Restart(at, landed) => t, b' := RejoinCanOccur(h, b, at, landed, n);
  }
}
