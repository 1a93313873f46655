/**
  Two trackers with their own disks and caches. A command runs at one of them and every file it changed is
  pushed whole to the sibling if that is up; a tracker that comes back is sent all files of the sibling.
  Commands run one at a time and their pushes finish before the next event.
 */
module Replication {
  import opened Text
  import opened Store
  import opened Handlers
  import opened View
  import opened Invariants
  import opened Commands
  import opened Names

  datatype Node = Node(up: bool, state: State)

  /** The trackers, numbered 0 and 1. */
  type Cluster = c: seq<Node> | |c| == 2 witness [Node(true, Refresh(map[])), Node(false, Refresh(map[]))]

  datatype Event =
    | Run(at: nat, cmd: Command)
    | Crash(at: nat)
    /** Of the files the sibling pushes back, those in `landed` arrive; the others come too early. */
    | Restart(at: nat, landed: set<Path>)

  function Sibling(i: nat): nat {
    if i != 0 then 0 else 1
  }

  /** Tracker 0 starts with an empty directory; tracker 1 has not been started. */
  function Init(): Cluster {
    [Node(true, Refresh(map[])), Node(false, State(map[], Load(map[])))]
  }

  /** `Sync` of each file in turn: the sibling's copy is overwritten. */
  function Push(src: Disk, dst: Disk, paths: seq<Path>): Disk
    decreases |paths|
  {
    if paths == [] then dst
    else if paths[0] in src then Push(src, dst[paths[0] := src[paths[0]]], paths[1..])
    else Push(src, dst, paths[1..])
  }

  /** `SyncAll`: the sibling pushes every file it has; those in `landed` arrive. */
  function CatchUp(own: Disk, theirs: Disk, landed: set<Path>): Disk {
    own + (theirs - (theirs.Keys - landed))
  }

  predicate Enabled(n: Cluster, e: Event) {
    e.at < 2 &&
    match e
    case Run(at, _) => n[at].up
    case Crash(at) => n[at].up && n[Sibling(at)].up
    case Restart(at, _) => !n[at].up && n[Sibling(at)].up
  }

  /** One event. A restarting tracker loads what it has and is then sent the sibling's files. */
  function Apply(h: PasswordHash, n: Cluster, e: Event): Cluster
    requires Enabled(n, e)
  {
    var sib := Sibling(e.at);
    match e
    case Run(at, cmd) =>
      var o := Step(h, n[at].state, cmd);
      var other := n[sib];
      n[at := Node(true, o.state)]
       [sib := if other.up then other.(state := other.state.(disk := Push(o.state.disk, other.state.disk, o.pushed)))
               else other]
    case Crash(at) => n[at := n[at].(up := false)]
    case Restart(at, landed) =>
      var loaded := Refresh(n[at].state.disk);
      n[at := Node(true, loaded.(disk := CatchUp(loaded.disk, n[sib].state.disk, landed)))]
  }

  ghost predicate ValidRun(h: PasswordHash, n: Cluster, events: seq<Event>)
    decreases |events|
  {
    events == [] || (Enabled(n, events[0]) && ValidRun(h, Apply(h, n, events[0]), events[1..]))
  }

  ghost function Final(h: PasswordHash, n: Cluster, events: seq<Event>): Cluster
    requires ValidRun(h, n, events)
    decreases |events|
  {
    if events == [] then n else Final(h, Apply(h, n, events[0]), events[1..])
  }

  /******* A command changes only what it pushes *******/

  ghost predicate Touches(d: Disk, d': Disk, pushed: seq<Path>) {
    && d.Keys <= d'.Keys
    && (forall p :: p in pushed ==> p in d')
    && (forall p :: p in d' && p !in pushed ==> p in d && d'[p] == d[p])
  }

  ghost predicate OutcomeTouches(s: State, o: Outcome) {
    BASE <= o.state.disk.Keys && Touches(s.disk, o.state.disk, o.pushed)
  }

  lemma AccountsTouch(h: PasswordHash, s: State, c: Command)
    requires BASE <= s.disk.Keys && (c.Login? || c.CreateUser? || c.CreateGroup? || c.Logout?)
    ensures OutcomeTouches(s, Step(h, s, c))
  {
    WithBaseSame(s.disk);
    match c
    case CreateUser(u, pw, port, ip, salt) => WithBaseSame(NewUser(h, s.disk, u, pw, port, ip, salt));
    case CreateGroup(g, u) => WithBaseSame(NewGroup(s.disk, g, u));
    case Logout(u) => WithBaseSame(Delete(s.disk, Online, ByField(0, u)));
    case _ =>
  }

  lemma GroupsTouch(h: PasswordHash, s: State, c: Command)
    requires BASE <= s.disk.Keys
    requires c.JoinGroup? || c.AcceptRequest? || c.Upload? || c.StopShare?
    ensures OutcomeTouches(s, Step(h, s, c))
  {
  }

  lemma LeaveTouches(s: State, g: string, u: string)
    requires BASE <= s.disk.Keys
    ensures OutcomeTouches(s, DoLeave(s, g, u))
  {
  }

  lemma StepTouches(h: PasswordHash, s: State, c: Command)
    requires BASE <= s.disk.Keys
    ensures OutcomeTouches(s, Step(h, s, c))
  {
    if c.Login? || c.CreateUser? || c.CreateGroup? || c.Logout? {
      AccountsTouch(h, s, c);
    } else if c.JoinGroup? || c.AcceptRequest? || c.Upload? || c.StopShare? {
      GroupsTouch(h, s, c);
    } else if c.LeaveGroup? {
      LeaveTouches(s, c.group, c.user);
    } else {
      WithBaseSame(s.disk);
    }
  }

  /** The files of groups and users that a command creates or changes if it goes through. */
  function Opens(c: Command): set<Path> {
    match c
    case CreateUser(u, _, _, _, _) => {UserFiles(u), Downloading(u), Downloaded(u)}
    case CreateGroup(g, _) => {Members(g), GroupFiles(g)}
    case AcceptRequest(g, _, _) => {Members(g)}
    case Upload(_, _, g, u, _, _) => {GroupFiles(g), UserFiles(u)}
    case StopShare(g, _, u) => {GroupFiles(g), UserFiles(u)}
    case LeaveGroup(g, u) => {Members(g), GroupFiles(g), UserFiles(u)}
    case GiveSha(_, _, u) => {Downloading(u)}
    case AddFile(g, _, _, u) => {GroupFiles(g), UserFiles(u)}
    case Complete(_, _, u) => {Downloading(u), Downloaded(u)}
    case _ => {}
  }

  ghost predicate PushesOpened(o: Outcome, c: Command) {
    o.pushed != [] ==> forall p :: p in o.pushed && p !in BASE <==> p in Opens(c)
  }

  lemma NewUserOpens(u: string, c: Command)
    requires Opens(c) == {UserFiles(u), Downloading(u), Downloaded(u)}
    ensures forall p :: p in [Online, Credentials, UserFiles(u), Downloading(u), Downloaded(u)] && p !in BASE
                   <==> p in Opens(c)
  {
  }

  lemma CreateUserOpens(h: PasswordHash, s: State, c: Command)
    requires c.CreateUser?
    ensures PushesOpened(Step(h, s, c), c)
  {
    NewUserOpens(c.user, c);
    SignUpPushed(h, s.disk, c.user, c.password, c.port, c.ip, c.salt);
  }

  lemma AccountsOpen(h: PasswordHash, s: State, c: Command)
    requires c.Login? || c.CreateGroup? || c.Logout?
    ensures PushesOpened(Step(h, s, c), c)
  {
  }

  lemma GiveShaOpens(d: Disk, g: string, name: string, u: string)
    ensures PushesOpened(DoGiveSha(d, g, name, u), GiveSha(g, name, u))
  {
  }

  lemma AddFileOpens(d: Disk, g: string, name: string, path: string, u: string)
    ensures PushesOpened(DoAddFile(d, g, name, path, u), AddFile(g, name, path, u))
  {
  }

  lemma CompleteOpens(d: Disk, g: string, name: string, u: string)
    ensures PushesOpened(DoComplete(d, g, name, u), Complete(g, name, u))
  {
  }

  lemma DownloadsOpen(h: PasswordHash, s: State, c: Command)
    requires c.GiveSha? || c.AddFile? || c.Complete?
    ensures PushesOpened(Step(h, s, c), c)
  {
    match c
    case GiveSha(g, name, u) => GiveShaOpens(s.disk, g, name, u);
    case AddFile(g, name, path, u) => AddFileOpens(s.disk, g, name, path, u);
    case Complete(g, name, u) => CompleteOpens(s.disk, g, name, u);
  }

  lemma GroupsOpen(h: PasswordHash, s: State, c: Command)
    requires c.JoinGroup? || c.AcceptRequest? || c.Upload? || c.StopShare? || c.LeaveGroup?
    ensures PushesOpened(Step(h, s, c), c)
  {
  }

  lemma PushedOpens(h: PasswordHash, s: State, c: Command)
    ensures PushesOpened(Step(h, s, c), c)
  {
    if c.JoinGroup? || c.AcceptRequest? || c.Upload? || c.StopShare? || c.LeaveGroup? {
      GroupsOpen(h, s, c);
    } else if c.GiveSha? || c.AddFile? || c.Complete? {
      DownloadsOpen(h, s, c);
    } else if c.CreateUser? {
      CreateUserOpens(h, s, c);
    } else if c.Login? || c.CreateGroup? || c.Logout? {
      AccountsOpen(h, s, c);
    }
  }

  lemma {:induction false} PushCopies(src: Disk, dst: Disk, paths: seq<Path>)
    requires forall p :: p in paths ==> p in src
    ensures var r := Push(src, dst, paths);
            && (forall p :: p in r <==> p in dst || p in paths)
            && (forall p :: p in r ==> r[p] == if p in paths then src[p] else dst[p])
    decreases |paths|
  {
    if paths != [] {
      assert paths == [paths[0]] + paths[1..];
      PushCopies(src, dst[paths[0] := src[paths[0]]], paths[1..]);
    }
  }

  lemma {:induction false} PushEqualizes(d: Disk, d': Disk, pushed: seq<Path>)
    requires Touches(d, d', pushed)
    ensures Push(d', d, pushed) == d'
  {
    PushCopies(d', d, pushed);
  }

  lemma OpensOpenable(c: Command, p: Path)
    requires Proper(c) && p in Opens(c)
    ensures '/' !in NameOf(p)
  {
  }

  /** The files a command pushes can all be opened exactly when the names it makes files for hold no slash. */
  lemma PushesOpenableExactly(o: Outcome, c: Command)
    requires PushesOpened(o, c) && o.pushed != []
    ensures (forall p :: p in o.pushed ==> Openable(p)) <==> forall p :: p in Opens(c) ==> '/' !in NameOf(p)
  {
    forall p ensures Openable(p) <==> '/' !in NameOf(p) {
      OpenableExactly(p);
    }
    assert forall p :: p in BASE ==> NameOf(p) == "";
  }

  /** What a proper command's outcome does to the disk: it changes and pushes only files that can be opened. */
  lemma ProperTouches(h: PasswordHash, s: State, c: Command, o: Outcome)
    requires BASE <= s.disk.Keys && Proper(c) && o == Step(h, s, c)
    ensures OutcomeTouches(s, o)
    ensures forall p :: p in o.pushed ==> Openable(p)
  {
    StepTouches(h, s, c);
    PushedOpens(h, s, c);
    if o.pushed != [] {
      forall p | p in Opens(c) ensures '/' !in NameOf(p) {
        OpensOpenable(c, p);
      }
      PushesOpenableExactly(o, c);
    }
  }

  /******* Replication *******/

  /** Up trackers have equal disks; a tracker that is down knows no file the survivor lacks. */
  ghost predicate Replicated(n: Cluster) {
    && (n[0].up || n[1].up)
    && (forall i :: 0 <= i < 2 && n[i].up ==> BASE <= n[i].state.disk.Keys)
    && (n[0].up && n[1].up ==> n[0].state.disk == n[1].state.disk)
    && (forall i :: 0 <= i < 2 && !n[i].up ==> n[i].state.disk.Keys <= n[Sibling(i)].state.disk.Keys)
  }

  lemma SameDisks(n: Cluster, i: nat, j: nat)
    requires Replicated(n) && i < 2 && j < 2 && n[i].up && n[j].up
    ensures n[i].state.disk == n[j].state.disk
  {
    assert i == j || n[0].state.disk == n[1].state.disk;
  }

  lemma RunReplicated(h: PasswordHash, n: Cluster, at: nat, cmd: Command)
    requires Replicated(n) && Enabled(n, Run(at, cmd))
    ensures Replicated(Apply(h, n, Run(at, cmd)))
    ensures var after, o, other := Apply(h, n, Run(at, cmd)), Step(h, n[at].state, cmd), n[Sibling(at)];
            && after[at] == Node(true, o.state)
            && after[Sibling(at)] == if other.up then Node(true, State(o.state.disk, other.state.cache)) else other
  {
    var o := Step(h, n[at].state, cmd);
    StepTouches(h, n[at].state, cmd);
    PushEqualizes(n[at].state.disk, o.state.disk, o.pushed);
  }

  /******* Restarts *******/

  /** Files of `theirs` that `own` lacks or has with other content. */
  function Differing(own: Disk, theirs: Disk): set<Path> {
    set p | p in theirs && !(p in own && own[p] == theirs[p])
  }

  /** What a tracker that is down would have to be sent. */
  function Behind(n: Cluster, at: nat): set<Path>
    requires at < 2
  {
    Differing(WithBase(n[at].state.disk), n[Sibling(at)].state.disk)
  }

  lemma CatchUpEqualizes(own: Disk, theirs: Disk, landed: set<Path>)
    requires own.Keys <= theirs.Keys
    ensures CatchUp(own, theirs, landed) == theirs <==> Differing(own, theirs) <= landed
  {
    var r := CatchUp(own, theirs, landed);
    if !(Differing(own, theirs) <= landed) {
      var p :| p in Differing(own, theirs) && p !in landed;
      assert p in r ==> r[p] == own[p];
    }
  }

  /** The catch-up is a push of the files that arrive, in whatever order they do. */
  lemma {:induction false} CatchUpIsPush(own: Disk, theirs: Disk, landed: set<Path>, order: seq<Path>)
    requires forall p :: p in order <==> p in theirs && p in landed
    ensures CatchUp(own, theirs, landed) == Push(theirs, own, order)
  {
    PushCopies(theirs, own, order);
  }

  /** A restart restores replication exactly when every file the tracker is behind on arrives. */
  lemma RestartExactly(h: PasswordHash, n: Cluster, at: nat, landed: set<Path>)
    requires Replicated(n) && Enabled(n, Restart(at, landed))
    ensures Replicated(Apply(h, n, Restart(at, landed))) <==> Behind(n, at) <= landed
    ensures Behind(n, at) <= landed ==>
            Apply(h, n, Restart(at, landed))[at].state.disk == n[Sibling(at)].state.disk
  {
    CatchUpEqualizes(WithBase(n[at].state.disk), n[Sibling(at)].state.disk, landed);
  }

  ghost predicate Lands(n: Cluster, e: Event)
    requires e.at < 2
  {
    e.Restart? ==> Behind(n, e.at) <= e.landed
  }

  lemma EventReplicated(h: PasswordHash, n: Cluster, e: Event)
    requires Replicated(n) && Enabled(n, e)
    ensures Replicated(Apply(h, n, e)) <==> Lands(n, e)
  {
    match e
    case Run(at, cmd) => RunReplicated(h, n, at, cmd);
    case Crash(_) =>
    case Restart(at, landed) => RestartExactly(h, n, at, landed);
  }

  /** What one event does to the common disk, read on any tracker that is up before and any that is up after. */
  lemma UpDisks(h: PasswordHash, n: Cluster, e: Event, i: nat, j: nat)
    requires Replicated(n) && Enabled(n, e) && Lands(n, e) && i < 2 && j < 2
    requires n[i].up && Apply(h, n, e)[j].up
    ensures e.Run? ==> n[e.at].state.disk == n[i].state.disk
    ensures Apply(h, n, e)[j].state.disk
         == if e.Run? then Step(h, n[e.at].state, e.cmd).state.disk else n[i].state.disk
  {
    match e
    case Run(at, cmd) => RunReplicated(h, n, at, cmd);
    case Crash(_) =>
    case Restart(at, landed) => RestartExactly(h, n, at, landed);
  }

  /** Every restart of the run is sent, in time, all that it is behind on. */
  ghost predicate AllLand(h: PasswordHash, n: Cluster, events: seq<Event>)
    requires ValidRun(h, n, events)
    decreases |events|
  {
    events == [] || (Lands(n, events[0]) && AllLand(h, Apply(h, n, events[0]), events[1..]))
  }

  /** The trackers are replicated after every event of the run. */
  ghost predicate StaysReplicated(h: PasswordHash, n: Cluster, events: seq<Event>)
    requires ValidRun(h, n, events)
    decreases |events|
  {
    Replicated(n) && (events == [] || StaysReplicated(h, Apply(h, n, events[0]), events[1..]))
  }

  lemma {:induction false} StaysReplicatedExactly(h: PasswordHash, n: Cluster, events: seq<Event>)
    requires Replicated(n) && ValidRun(h, n, events)
    ensures StaysReplicated(h, n, events) <==> AllLand(h, n, events)
    ensures AllLand(h, n, events) ==> Replicated(Final(h, n, events))
    decreases |events|
  {
    if events != [] {
      var next := Apply(h, n, events[0]);
      EventReplicated(h, n, events[0]);
      if Lands(n, events[0]) {
        StaysReplicatedExactly(h, next, events[1..]);
      } else {
        assert !StaysReplicated(h, next, events[1..]);
      }
    }
  }

  /** Every command of the run has proper arguments. */
  ghost predicate AllProper(events: seq<Event>) {
    forall e :: e in events && e.Run? ==> Proper(e.cmd)
  }

  /**
    Whatever the proper commands, crashes and restarts: the trackers stay replicated (both up means equal disks,
    one down means no file lost) exactly in the runs whose restarts receive all they are behind on.
   */
  lemma {:induction false} AlwaysReplicated(h: PasswordHash, events: seq<Event>)
    requires ValidRun(h, Init(), events) && AllProper(events)
    ensures StaysReplicated(h, Init(), events) <==> AllLand(h, Init(), events)
    ensures AllLand(h, Init(), events) ==> Replicated(Final(h, Init(), events))
  {
    StaysReplicatedExactly(h, Init(), events);
  }

  /** Clusters that some run with proper arguments and timely catch-ups reaches. */
  ghost predicate Attained(h: PasswordHash, n: Cluster) {
    exists events :: ValidRun(h, Init(), events) && AllProper(events) && AllLand(h, Init(), events)
                     && Final(h, Init(), events) == n
  }

  lemma AttainedReplicated(h: PasswordHash, n: Cluster)
    requires Attained(h, n)
    ensures Replicated(n)
  {
    var events :| ValidRun(h, Init(), events) && AllProper(events) && AllLand(h, Init(), events)
                  && Final(h, Init(), events) == n;
    AlwaysReplicated(h, events);
  }

  /** Handlers that refresh their caches first. */
  predicate Refreshes(c: Command) {
    !c.JoinGroup? && !c.AcceptRequest? && !c.Upload? && !c.StopShare? && !c.LeaveGroup? && !c.SendFullPath?
  }

  ghost predicate SameAnswer(o: Outcome, o': Outcome) {
    o.reply == o'.reply && o.state.disk == o'.state.disk && o.pushed == o'.pushed
  }

  lemma CacheIsIgnored(h: PasswordHash, d: Disk, a: Cache, b: Cache, c: Command)
    requires Refreshes(c) || c.SendFullPath?
    ensures SameAnswer(Step(h, State(d, a), c), Step(h, State(d, b), c))
  {
  }

  /** A refreshing command is answered alike, and has the same effect, at either tracker. */
  lemma SameAnswerAnywhere(h: PasswordHash, n: Cluster, c: Command)
    requires Attained(h, n) && n[0].up && n[1].up && Proper(c)
    requires Refreshes(c) || c.SendFullPath?
    ensures SameAnswer(Step(h, n[0].state, c), Step(h, n[1].state, c))
  {
    AttainedReplicated(h, n);
    CacheIsIgnored(h, n[0].state.disk, n[0].state.cache, n[1].state.cache, c);
  }

  /** What a command that trusts its cache asks of it. */
  predicate Knows(c: Cache, cmd: Command)
    requires !Refreshes(cmd) && !cmd.SendFullPath?
  {
    cmd.group in c.groups &&
    match cmd
    case AcceptRequest(g, u, owner) => c.groups[g] == owner && u in c.credentials && (u, g) in c.pending
    case StopShare(_, _, u) => u in c.credentials
    case LeaveGroup(g, u) => c.groups[g] != u
    case _ => true
  }

  /** What it asks of the disk. */
  predicate Permits(d: Disk, cmd: Command)
    requires !Refreshes(cmd) && !cmd.SendFullPath?
  {
    match cmd
    case Upload(hash, _, g, u, name, _) =>
      var files := Read(d, GroupFiles(g));
      u in MembersOf(d, g)
      && (Found(files, ByFields(0, hash, 2, u)) || !NameTaken(files, hash, ListedName(files, hash, name)))
    case StopShare(g, _, u) => u in MembersOf(d, g)
    case LeaveGroup(g, u) => u in MembersOf(d, g)
    case _ => true
  }

  lemma CachedAnswer(h: PasswordHash, s: State, c: Command)
    requires !Refreshes(c) && !c.SendFullPath?
    ensures Step(h, s, c).reply == Verdict(Knows(s.cache, c) && Permits(s.disk, c))
  {
  }

  /** The cache holds the request already and takes the owner to be offline: nothing more is written. */
  predicate Repeats(c: Cache, g: string, u: string) {
    g in c.groups && c.groups[g] !in c.online && (u, g) in c.pending
  }

  lemma JoinWrites(s: State, g: string, u: string)
    requires g in s.cache.groups && u !in MembersOf(s.disk, g)
    ensures var o := DoJoin(s, g, u);
            && o.pushed == [Pending]
            && o.state.disk == if Repeats(s.cache, g, u) then s.disk else Append(s.disk, Pending, [u, g])
  {
  }

  lemma AppendChanges(d: Disk, p: Path, r: Record)
    ensures Append(d, p, r) != d
  {
    assert |Read(Append(d, p, r), p)| == |Read(d, p)| + 1;
  }

  lemma JoinsAgreeExactly(d: Disk, a: Cache, b: Cache, g: string, u: string)
    requires g in a.groups && g in b.groups
    ensures SameAnswer(DoJoin(State(d, a), g, u), DoJoin(State(d, b), g, u))
       <==> u in MembersOf(d, g) || (Repeats(a, g, u) <==> Repeats(b, g, u))
  {
    AppendChanges(d, Pending, [u, g]);
    if u !in MembersOf(d, g) {
      JoinWrites(State(d, a), g, u);
      JoinWrites(State(d, b), g, u);
    }
  }

  /** A command that a tracker refuses changes and pushes nothing. */
  lemma RefusedChangesNothing(h: PasswordHash, s: State, c: Command)
    requires !Refreshes(c) && !c.SendFullPath? && !(Knows(s.cache, c) && Permits(s.disk, c))
    ensures var o := Step(h, s, c); o.reply == Verdict(false) && o.state.disk == s.disk && o.pushed == []
  {
  }

  lemma AdmissionsAlike(d: Disk, a: Cache, b: Cache, g: string, u: string, owner: string)
    requires Knows(a, AcceptRequest(g, u, owner)) && Knows(b, AcceptRequest(g, u, owner))
    ensures SameAnswer(DoAccept(State(d, a), g, u, owner), DoAccept(State(d, b), g, u, owner))
  {
  }

  lemma SharesAlike(h: PasswordHash, d: Disk, a: Cache, b: Cache, c: Command)
    requires (c.Upload? || c.StopShare?) && Knows(a, c) && Knows(b, c)
    ensures SameAnswer(Step(h, State(d, a), c), Step(h, State(d, b), c))
  {
  }

  lemma DeparturesAlike(d: Disk, a: Cache, b: Cache, g: string, u: string)
    requires Knows(a, LeaveGroup(g, u)) && Knows(b, LeaveGroup(g, u))
    ensures SameAnswer(DoLeave(State(d, a), g, u), DoLeave(State(d, b), g, u))
  {
  }

  /** Apart from a join, what an accepted command does depends on the disk alone. */
  lemma AcceptedAlike(h: PasswordHash, d: Disk, a: Cache, b: Cache, c: Command)
    requires !Refreshes(c) && !c.SendFullPath? && !c.JoinGroup? && Knows(a, c) && Knows(b, c)
    ensures SameAnswer(Step(h, State(d, a), c), Step(h, State(d, b), c))
  {
    match c
    case AcceptRequest(g, u, owner) => AdmissionsAlike(d, a, b, g, u, owner);
    case LeaveGroup(g, u) => DeparturesAlike(d, a, b, g, u);
    case _ => SharesAlike(h, d, a, b, c);
  }

  /** Both caches know what the command takes and, for a join of an outsider, whether it is a repetition. */
  ghost predicate KnowAlike(d: Disk, a: Cache, b: Cache, c: Command)
    requires !Refreshes(c) && !c.SendFullPath?
  {
    && Knows(a, c) && Knows(b, c)
    && (c.JoinGroup? && c.user !in MembersOf(d, c.group)
        ==> (Repeats(a, c.group, c.user) <==> Repeats(b, c.group, c.user)))
  }

  /**
    Two trackers with equal disks give a command that trusts its cache the same answer, effect and pushes exactly
    when the disk refuses it, neither cache knows what it takes, or both know alike.
   */
  lemma CachedAnswersAgreeExactly(h: PasswordHash, d: Disk, a: Cache, b: Cache, c: Command)
    requires !Refreshes(c) && !c.SendFullPath?
    ensures SameAnswer(Step(h, State(d, a), c), Step(h, State(d, b), c))
       <==> !Permits(d, c) || (!Knows(a, c) && !Knows(b, c)) || KnowAlike(d, a, b, c)
  {
    CachedAnswer(h, State(d, a), c);
    CachedAnswer(h, State(d, b), c);
    if !Permits(d, c) || (!Knows(a, c) && !Knows(b, c)) {
      RefusedChangesNothing(h, State(d, a), c);
      RefusedChangesNothing(h, State(d, b), c);
    } else if Knows(a, c) && Knows(b, c) {
      if c.JoinGroup? {
        JoinsAgreeExactly(d, a, b, c.group, c.user);
      } else {
        AcceptedAlike(h, d, a, b, c);
      }
    }
  }

  /** Whether a command that opens files of users or groups gets to do so, as far as the state before it tells. */
  ghost predicate Acts(s: State, c: Command) {
    match c
    case CreateUser(u, _, _, _, _) => u !in ViewOf(s.disk).users
    case CreateGroup(g, _) => g !in ViewOf(s.disk).owners
    case AcceptRequest(g, u, _) => Knows(s.cache, c) && u !in MembersOf(s.disk, g)
    case Upload(hash, _, g, u, _, _) =>
      Knows(s.cache, c) && Permits(s.disk, c) && !Found(Read(s.disk, GroupFiles(g)), ByFields(0, hash, 2, u))
    case StopShare(_, _, _) => Knows(s.cache, c) && Permits(s.disk, c)
    case LeaveGroup(_, _) => Knows(s.cache, c) && Permits(s.disk, c)
    case GiveSha(g, _, u) => g in ViewOf(s.disk).owners && u in MembersOf(s.disk, g)
    case AddFile(_, name, _, u) => !Found(Read(s.disk, UserFiles(u)), ByField(1, name))
    case Complete(_, _, _) => true
    case _ => false
  }

  lemma AccountsAct(h: PasswordHash, s: State, c: Command)
    requires c.CreateUser? || c.CreateGroup?
    ensures Step(h, s, c).pushed != [] <==> Acts(s, c)
  {
    LoadIsTrue(s.disk);
  }

  lemma GroupsAct(h: PasswordHash, s: State, c: Command)
    requires c.AcceptRequest? || c.Upload? || c.StopShare? || c.LeaveGroup?
    ensures Step(h, s, c).pushed != [] <==> Acts(s, c)
  {
  }

  lemma DownloadsAct(h: PasswordHash, s: State, c: Command)
    requires BASE <= s.disk.Keys && (c.GiveSha? || c.AddFile? || c.Complete?)
    ensures Step(h, s, c).pushed != [] <==> Acts(s, c)
  {
    LoadIsTrue(s.disk);
    WithBaseSame(s.disk);
  }

  lemma ActsExactly(h: PasswordHash, s: State, c: Command)
    requires BASE <= s.disk.Keys && Opens(c) != {}
    ensures Step(h, s, c).pushed != [] <==> Acts(s, c)
  {
    if c.CreateUser? || c.CreateGroup? {
      AccountsAct(h, s, c);
    } else if c.GiveSha? || c.AddFile? || c.Complete? {
      DownloadsAct(h, s, c);
    } else {
      GroupsAct(h, s, c);
    }
  }

  /******* Outages *******/

  /** The files that the commands of a run push, whether or not the sibling is up. */
  ghost function PushedBy(h: PasswordHash, n: Cluster, events: seq<Event>): set<Path>
    requires ValidRun(h, n, events)
    decreases |events|
  {
    if events == [] then {}
    else
      var e := events[0];
      (if e.Run? then set p | p in Step(h, n[e.at].state, e.cmd).pushed else {})
      + PushedBy(h, Apply(h, n, e), events[1..])
  }

  /** One command while tracker `at` is down. */
  lemma RunWhileDown(h: PasswordHash, n: Cluster, at: nat, e: Event)
    requires Replicated(n) && at < 2 && !n[at].up && Enabled(n, e) && !e.Restart?
    ensures e.Run? && e.at == Sibling(at)
    ensures var n' := Apply(h, n, e);
            && Replicated(n') && n'[at] == n[at]
            && Differing(n[at].state.disk, n'[Sibling(at)].state.disk)
               <= Differing(n[at].state.disk, n[Sibling(at)].state.disk)
                  + (set p | p in Step(h, n[e.at].state, e.cmd).pushed)
  {
    RunReplicated(h, n, e.at, e.cmd);
    StepTouches(h, n[e.at].state, e.cmd);
  }

  /** While a tracker is down, its disk falls behind only on files pushed since. */
  lemma {:induction false} FallsBehind(h: PasswordHash, n: Cluster, at: nat, events: seq<Event>)
    requires Replicated(n) && at < 2 && !n[at].up
    requires ValidRun(h, n, events) && forall e :: e in events ==> !e.Restart?
    ensures var later := Final(h, n, events);
            && Replicated(later) && later[at] == n[at]
            && Differing(n[at].state.disk, later[Sibling(at)].state.disk)
               <= Differing(n[at].state.disk, n[Sibling(at)].state.disk) + PushedBy(h, n, events)
    decreases |events|
  {
    if events != [] {
      RunWhileDown(h, n, at, events[0]);
      FallsBehind(h, Apply(h, n, events[0]), at, events[1..]);
    }
  }

  /** Tracker `at` crashes while both are up, and stays down through `outage`. */
  lemma {:induction false} OutageBehind(h: PasswordHash, n: Cluster, at: nat, outage: seq<Event>)
    requires Replicated(n) && at < 2 && n[0].up && n[1].up
    requires forall e :: e in outage ==> !e.Restart?
    requires ValidRun(h, Apply(h, n, Crash(at)), outage)
    ensures var down := Apply(h, n, Crash(at));
            var later := Final(h, down, outage);
            && Replicated(later) && !later[at].up && later[Sibling(at)].up
            && Behind(later, at) <= PushedBy(h, down, outage)
  {
    var down := Apply(h, n, Crash(at));
    EventReplicated(h, n, Crash(at));
    FallsBehind(h, down, at, outage);
    WithBaseSame(n[at].state.disk);
  }

  /**
    After an outage of one of two trackers that were up, it is behind only on files pushed since its crash; a
    restart that receives those brings it level again.
   */
  lemma {:induction false} OutageHeals(h: PasswordHash, n: Cluster, at: nat, outage: seq<Event>, landed: set<Path>)
    requires Attained(h, n) && at < 2 && n[0].up && n[1].up
    requires AllProper(outage) && forall e :: e in outage ==> !e.Restart?
    requires ValidRun(h, Apply(h, n, Crash(at)), outage)
    ensures var down := Apply(h, n, Crash(at));
            var later := Final(h, down, outage);
            && Enabled(later, Restart(at, landed))
            && Behind(later, at) <= PushedBy(h, down, outage)
            && (PushedBy(h, down, outage) <= landed ==> Replicated(Apply(h, later, Restart(at, landed))))
  {
    AttainedReplicated(h, n);
    OutageBehind(h, n, at, outage);
    RestartExactly(h, Final(h, Apply(h, n, Crash(at)), outage), at, landed);
  }

  /******* Invariants of the whole system *******/

  /** Commands have proper arguments and are safe where they run; restarts receive what they are behind on. */
  ghost predicate Allowed(n: Cluster, e: Event)
    requires e.at < 2
  {
    && Lands(n, e)
    && (e.Run? ==> Proper(e.cmd) && Safe(n[e.at].state, e.cmd))
  }

  ghost predicate Guarded(h: PasswordHash, n: Cluster, events: seq<Event>)
    requires ValidRun(h, n, events)
    decreases |events|
  {
    events == [] || (Allowed(n, events[0]) && Guarded(h, Apply(h, n, events[0]), events[1..]))
  }

  /** An up tracker's disk is in order and its cache true; a down one's accounts and owners still hold. */
  ghost predicate NodeInv(node: Node, sibling: Node) {
    if node.up then DiskInv(node.state.disk) && CacheOk(node.state.cache, ViewOf(node.state.disk))
    else Grows(ViewOf(node.state.disk), ViewOf(sibling.state.disk))
  }

  ghost predicate SystemInv(n: Cluster) {
    Replicated(n) && NodeInv(n[0], n[1]) && NodeInv(n[1], n[0])
  }

  lemma EmptyView()
    ensures ViewOf(map[]).users == {} && ViewOf(map[]).owners == map[]
    ensures Load(map[]).credentials == map[] && Load(map[]).groups == map[]
  {
  }

  lemma InitSystem()
    ensures SystemInv(Init())
  {
    var base := Refresh(map[]).disk;
    assert base.Keys == BASE && forall p :: p in base ==> base[p] == [];
    EmptyDiskInv(base);
    EmptyView();
  }

  lemma CacheGrows(c: Cache, v: View, w: View)
    requires CacheOk(c, v) && Grows(v, w)
    ensures CacheOk(c, w)
  {
  }

  lemma KeptSystem(n: Cluster, at: nat, o: Outcome, after: Cluster)
    requires SystemInv(n) && at < 2 && n[at].up && Kept(n[at].state, o) && Replicated(after)
    requires after[at] == Node(true, o.state)
    requires var sib := Sibling(at);
             after[sib] == if n[sib].up then Node(true, State(o.state.disk, n[sib].state.cache)) else n[sib]
    ensures SystemInv(after)
  {
  }

  lemma RunSystem(h: PasswordHash, n: Cluster, at: nat, cmd: Command)
    requires SystemInv(n) && Enabled(n, Run(at, cmd)) && Safe(n[at].state, cmd)
    ensures SystemInv(Apply(h, n, Run(at, cmd)))
  {
    RunReplicated(h, n, at, cmd);
    StepKeeps(h, n[at].state, cmd);
    KeptSystem(n, at, Step(h, n[at].state, cmd), Apply(h, n, Run(at, cmd)));
  }

  lemma RestartSystem(h: PasswordHash, n: Cluster, at: nat, landed: set<Path>)
    requires SystemInv(n) && Enabled(n, Restart(at, landed)) && Behind(n, at) <= landed
    ensures SystemInv(Apply(h, n, Restart(at, landed)))
  {
    var own, theirs := n[at].state.disk, n[Sibling(at)].state.disk;
    RestartExactly(h, n, at, landed);
    LoadIsTrue(own);
    CacheGrows(Load(own), ViewOf(own), ViewOf(theirs));
  }

  lemma EventSystem(h: PasswordHash, n: Cluster, e: Event)
    requires SystemInv(n) && Enabled(n, e) && Allowed(n, e)
    ensures SystemInv(Apply(h, n, e))
  {
    match e
    case Run(at, cmd) => RunSystem(h, n, at, cmd);
    case Crash(_) => EventReplicated(h, n, e);
    case Restart(at, landed) => RestartSystem(h, n, at, landed);
  }

  lemma {:induction false} RunsSystem(h: PasswordHash, n: Cluster, events: seq<Event>)
    requires SystemInv(n) && ValidRun(h, n, events) && Guarded(h, n, events)
    ensures SystemInv(Final(h, n, events))
    decreases |events|
  {
    if events != [] {
      EventSystem(h, n, events[0]);
      RunsSystem(h, Apply(h, n, events[0]), events[1..]);
    }
  }

  /** Clusters some guarded run reaches. */
  ghost predicate Reachable(h: PasswordHash, n: Cluster) {
    exists events :: ValidRun(h, Init(), events) && Guarded(h, Init(), events) && Final(h, Init(), events) == n
  }

  lemma ReachableSystem(h: PasswordHash, n: Cluster)
    requires Reachable(h, n)
    ensures SystemInv(n)
  {
    var events :| ValidRun(h, Init(), events) && Guarded(h, Init(), events) && Final(h, Init(), events) == n;
    InitSystem();
    RunsSystem(h, Init(), events);
  }

  /** The state of a tracker that is up after some guarded run of the pair. */
  ghost predicate ReachableUp(h: PasswordHash, s: State) {
    exists n: Cluster, i :: Reachable(h, n) && 0 <= i < 2 && n[i] == Node(true, s)
  }

  lemma ReachableInv(h: PasswordHash, s: State)
    requires ReachableUp(h, s)
    ensures DiskInv(s.disk) && CacheOk(s.cache, ViewOf(s.disk))
  {
    var n: Cluster, i :| Reachable(h, n) && 0 <= i < 2 && n[i] == Node(true, s);
    ReachableSystem(h, n);
    UpNode(n[i], n[Sibling(i)], s);
  }

  lemma UpNode(node: Node, sibling: Node, s: State)
    requires NodeInv(node, sibling) && node == Node(true, s)
    ensures DiskInv(s.disk) && CacheOk(s.cache, ViewOf(s.disk))
  {
  }
}
