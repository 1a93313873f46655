/**
  With two trackers the caches are no longer reliable. A request the sibling has already dealt with stays in
  the pending cache, and lets a user who has left the group back in without a new request; a tracker that has
  not refreshed since a group was founded refuses what its sibling accepts.
 */
module StaleCache {
  import opened Store
  import opened Handlers
  import opened View
  import opened Invariants
  import opened Commands
  import opened Names
  import opened Replication
  import opened Requests
  import opened Scenes

  /******* Requests that outlive their purpose *******/

  /** Bob has asked to join. */
  function Asked(online: set<string>): View {
    Founded(online).(pending := {("bob", "demo")})
  }

  /** Bob has been admitted. */
  function Joined(online: set<string>): View {
    Founded(online).(members := {("demo", "alice"), ("demo", "bob")})
  }

  /** A tracker's caches know the group, Bob's account and Bob's request. */
  ghost predicate Remembers(c: Cache) {
    "demo" in c.groups && c.groups["demo"] == "alice" && "bob" in c.credentials && ("bob", "demo") in c.pending
  }

  lemma JoinRuns(s: State, online: set<string>)
    requires s.cache == Load(s.disk) && ViewOf(s.disk) == Founded(online)
    ensures var s' := DoJoin(s, "demo", "bob").state;
            ViewOf(s'.disk) == Asked(online) && Remembers(s'.cache) && s'.cache.online == online
  {
    LoadIsTrue(s.disk);
    MembersAt(s.disk, "demo");
    assert ("demo", "bob") !in ViewOf(s.disk).members;
    RequestView(s.disk, "demo", "bob");
  }

  lemma AskToJoin(h: PasswordHash, n: Cluster, online: set<string>) returns (n': Cluster)
    requires Scene(h, n, Founded(online)) && n[1].state.cache == Load(n[1].state.disk)
    ensures Scene(h, n', Asked(online))
    ensures n'[0].state.cache == n[0].state.cache
    ensures Remembers(n'[1].state.cache) && n'[1].state.cache.online == online
  {
    DemoNames();
    JoinRuns(n[1].state, online);
    n' := Next(h, n, 1, JoinGroup("demo", "bob"), DoJoin(n[1].state, "demo", "bob"));
  }

  lemma ListingRuns(h: PasswordHash, s: State, online: set<string>)
    requires DiskInv(s.disk) && ViewOf(s.disk) == Asked(online)
    ensures Step(h, s, ListGroups).state.disk == s.disk && Remembers(Step(h, s, ListGroups).state.cache)
  {
    LoadIsTrue(s.disk);
    WithBaseSame(s.disk);
  }

  lemma RefreshAtZero(h: PasswordHash, n: Cluster, online: set<string>) returns (n': Cluster)
    requires Scene(h, n, Asked(online))
    ensures Scene(h, n', Asked(online))
    ensures Remembers(n'[0].state.cache) && n'[1].state.cache == n[1].state.cache
  {
    ListingRuns(h, n[0].state, online);
    n' := Next(h, n, 0, ListGroups, Step(h, n[0].state, ListGroups));
  }

  /** An acceptance, whether Bob's request is still on disk or only in the cache. */
  lemma AcceptRuns(s: State, online: set<string>)
    requires Remembers(s.cache) && ArityOk(s.disk)
    requires ViewOf(s.disk) == Asked(online) || ViewOf(s.disk) == Founded(online)
    ensures var s' := DoAccept(s, "demo", "bob", "alice").state;
            ViewOf(s'.disk) == Joined(online) && s'.cache == s.cache
  {
    MembersAt(s.disk, "demo");
    assert ("demo", "bob") !in ViewOf(s.disk).members;
    AdmitView(s.disk, "demo", "bob");
  }

  lemma AcceptSafe(s: State)
    ensures Proper(AcceptRequest("demo", "bob", "alice")) && Safe(s, AcceptRequest("demo", "bob", "alice"))
  {
    DemoNames();
  }

  lemma AcceptedAtZero(h: PasswordHash, n: Cluster, online: set<string>) returns (n': Cluster)
    requires Remembers(n[0].state.cache) && Scene(h, n, Asked(online))
    ensures Scene(h, n', Joined(online))
    ensures n'[0].state.cache == n[0].state.cache && n'[1].state.cache == n[1].state.cache
  {
    AcceptSafe(n[0].state);
    AcceptRuns(n[0].state, online);
    n' := Next(h, n, 0, AcceptRequest("demo", "bob", "alice"), DoAccept(n[0].state, "demo", "bob", "alice"));
  }

  lemma AcceptedAtOne(h: PasswordHash, n: Cluster, online: set<string>) returns (n': Cluster)
    requires Remembers(n[1].state.cache) && Scene(h, n, Asked(online))
    ensures Scene(h, n', Joined(online))
    ensures n'[0].state.cache == n[0].state.cache && n'[1].state.cache == n[1].state.cache
  {
    AcceptSafe(n[1].state);
    AcceptRuns(n[1].state, online);
    n' := Next(h, n, 1, AcceptRequest("demo", "bob", "alice"), DoAccept(n[1].state, "demo", "bob", "alice"));
  }

  /** Tracker 1 still remembers the request, although the disk of both has none. */
  lemma Readmitted(h: PasswordHash, n: Cluster, online: set<string>) returns (n': Cluster)
    requires Remembers(n[1].state.cache) && Scene(h, n, Founded(online))
    ensures n' == Apply(h, n, Run(1, AcceptRequest("demo", "bob", "alice")))
    ensures StatusOf(ViewOf(n'[0].state.disk), "demo", "bob") == Member
  {
    AcceptSafe(n[1].state);
    AcceptRuns(n[1].state, online);
    n' := Next(h, n, 1, AcceptRequest("demo", "bob", "alice"), DoAccept(n[1].state, "demo", "bob", "alice"));
  }

  lemma NobodyShares(d: Disk, g: string, u: string)
    requires ViewOf(d).listed == {} && ViewOf(d).shared == {} && ViewOf(d).named == {}
    ensures ViewOf(Depart(d, g, u)) == ViewOf(d).(members := ViewOf(d).members - {(g, u)})
  {
    DepartView(d, g, u);
  }

  lemma LeaveRuns(s: State, online: set<string>)
    requires Remembers(s.cache) && DiskInv(s.disk) && ViewOf(s.disk) == Joined(online)
    ensures ViewOf(DoLeave(s, "demo", "bob").state.disk) == Founded(online)
  {
    MembersAt(s.disk, "demo");
    assert ("demo", "bob") in ViewOf(s.disk).members;
    NobodyShares(s.disk, "demo", "bob");
    WithBaseSame(Depart(s.disk, "demo", "bob"));
  }

  lemma Left(h: PasswordHash, n: Cluster, online: set<string>) returns (n': Cluster)
    requires Scene(h, n, Joined(online)) && Remembers(n[0].state.cache)
    ensures Scene(h, n', Founded(online))
    ensures n'[1].state.cache == n[1].state.cache
  {
    DemoNames();
    LeaveRuns(n[0].state, online);
    n' := Next(h, n, 0, LeaveGroup("demo", "bob"), DoLeave(n[0].state, "demo", "bob"));
  }

  /** Bob asks at tracker 1, is admitted at tracker 0 and leaves there; tracker 1 still remembers the request. */
  lemma BobComesAndGoes(h: PasswordHash, n: Cluster, online: set<string>) returns (n': Cluster)
    requires Scene(h, n, Founded(online)) && n[1].state.cache == Load(n[1].state.disk)
    ensures Scene(h, n', Founded(online)) && Remembers(n'[1].state.cache) && n'[1].state.cache.online == online
  {
    n' := AskToJoin(h, n, online);
    n' := RefreshAtZero(h, n', online);
    n' := AcceptedAtZero(h, n', online);
    n' := Left(h, n', online);
  }

  /** A guarded run of the pair after which an acceptance admits a user who has no request anywhere. */
  lemma StaleCacheAdmitsStranger(h: PasswordHash) returns (n: Cluster, n': Cluster)
    ensures Reachable(h, n) && n[0].up && n[1].up
    ensures n' == Apply(h, n, Run(1, AcceptRequest("demo", "bob", "alice")))
    ensures StatusOf(ViewOf(n[0].state.disk), "demo", "bob") == Stranger
    ensures StatusOf(ViewOf(n'[0].state.disk), "demo", "bob") == Member
  {
    n := DemoScene(h);
    n := BobComesAndGoes(h, n, EVERYONE);
    n' := Readmitted(h, n, EVERYONE);
  }

  /** An acceptance admits a stranger exactly when the cache still holds a request the disk no longer has. */
  lemma AdmitsStrangerExactly(s: State, g: string, u: string, owner: string)
    requires ArityOk(s.disk)
    ensures StatusOf(ViewOf(s.disk), g, u) == Stranger
            && StatusOf(ViewOf(DoAccept(s, g, u, owner).state.disk), g, u) == Member
       <==> && g in s.cache.groups && s.cache.groups[g] == owner && u in s.cache.credentials
            && (u, g) in s.cache.pending
            && (u, g) !in ViewOf(s.disk).pending && (g, u) !in ViewOf(s.disk).members
  {
    MembersAt(s.disk, g);
    AdmitView(s.disk, g, u);
  }

  /******* Requests that are lost *******/

  /**
    A join is answered positively and leaves no request and no member exactly when the owner is offline, as far
    as the cache knows, and the cache holds a request the disk does not.
   */
  lemma JoinLostExactly(s: State, g: string, u: string)
    ensures DoJoin(s, g, u).reply == Verdict(true) && StatusOf(ViewOf(DoJoin(s, g, u).state.disk), g, u) == Stranger
       <==> && g in s.cache.groups && s.cache.groups[g] !in s.cache.online && (u, g) in s.cache.pending
            && (u, g) !in ViewOf(s.disk).pending && (g, u) !in ViewOf(s.disk).members
  {
    MembersAt(s.disk, g);
    RequestView(s.disk, g, u);
  }

  lemma LogoutRuns(s: State)
    requires DiskInv(s.disk) && ViewOf(s.disk) == Demo()
    ensures var s' := DoLogout(s.disk, "alice").state;
            ViewOf(s'.disk) == Founded({"bob"}) && s'.cache == Load(s'.disk)
  {
    var d' := Delete(s.disk, Online, ByField(0, "alice"));
    LoadIsTrue(s.disk);
    WithBaseSame(s.disk);
    DeleteView(s.disk, Online, ByField(0, "alice"));
    assert EVERYONE - {"alice"} == {"bob"};
    WithBaseSame(d');
  }

  lemma AliceLogsOut(h: PasswordHash) returns (n: Cluster)
    ensures Scene(h, n, Founded({"bob"})) && n[1].state.cache == Load(n[1].state.disk)
  {
    DemoNames();
    n := DemoScene(h);
    LogoutRuns(n[1].state);
    n := Next(h, n, 1, Logout("alice"), DoLogout(n[1].state.disk, "alice"));
  }

  lemma AskedInVain(s: State, o: Outcome)
    requires Remembers(s.cache) && s.cache.online == {"bob"} && ViewOf(s.disk) == Founded({"bob"})
    requires o == DoJoin(s, "demo", "bob")
    ensures o.reply == Verdict(true) && StatusOf(ViewOf(o.state.disk), "demo", "bob") == Stranger
  {
    assert ("demo", "bob") !in ViewOf(s.disk).members;
    JoinLostExactly(s, "demo", "bob");
  }

  /** A guarded run of the pair after which a join is answered positively and nothing is written. */
  lemma StaleCacheLosesRequest(h: PasswordHash) returns (n: Cluster, n': Cluster)
    ensures Reachable(h, n) && n[0].up && n[1].up
    ensures Step(h, n[1].state, JoinGroup("demo", "bob")).reply == Verdict(true)
    ensures n' == Apply(h, n, Run(1, JoinGroup("demo", "bob"))) && n'[0].state.disk == n'[1].state.disk
    ensures StatusOf(ViewOf(n'[1].state.disk), "demo", "bob") == Stranger
  {
    DemoNames();
    n := AliceLogsOut(h);
    n := BobComesAndGoes(h, n, {"bob"});
    AskedInVain(n[1].state, DoJoin(n[1].state, "demo", "bob"));
    n' := Next(h, n, 1, JoinGroup("demo", "bob"), DoJoin(n[1].state, "demo", "bob"));
  }

  /******* Groups the sibling has not heard of *******/

  /** Tracker 0 refuses the command and tracker 1 accepts it, although their disks are equal. */
  ghost predicate Disagree(h: PasswordHash, n: Cluster, c: Command) {
    && n[0].state.disk == n[1].state.disk
    && Step(h, n[0].state, c).reply == Verdict(false)
    && Step(h, n[1].state, c).reply == Verdict(true)
  }

  lemma UnknownGroup(h: PasswordHash, n: Cluster, c: Command)
    requires !Refreshes(c) && !c.SendFullPath? && n[0].state.disk == n[1].state.disk
    requires n[0].state.cache.groups == map[] && Knows(n[1].state.cache, c) && Permits(n[1].state.disk, c)
    ensures Disagree(h, n, c)
  {
    CachedAnswer(h, n[0].state, c);
    CachedAnswer(h, n[1].state, c);
  }

  lemma DemoPermits(s: State)
    requires s.cache == Load(s.disk) && ViewOf(s.disk) == Demo()
    ensures Knows(s.cache, JoinGroup("demo", "bob"))
    ensures var c := Upload("hash", "1", "demo", "alice", "a.txt", "/a.txt"); Knows(s.cache, c) && Permits(s.disk, c)
    ensures var c := StopShare("demo", "a.txt", "alice"); Knows(s.cache, c) && Permits(s.disk, c)
  {
    LoadIsTrue(s.disk);
    MembersAt(s.disk, "demo");
    ListedAt(s.disk, "demo");
    assert ("demo", "alice") in ViewOf(s.disk).members;
    NoEntriesNoLines(Read(s.disk, GroupFiles("demo")), "demo");
  }

  lemma BobMayLeave(s: State)
    requires Remembers(s.cache) && ViewOf(s.disk) == Joined(EVERYONE)
    ensures var c := LeaveGroup("demo", "bob"); Knows(s.cache, c) && Permits(s.disk, c)
  {
    MembersAt(s.disk, "demo");
    assert ("demo", "bob") in ViewOf(s.disk).members;
  }

  lemma EmptyCache()
    ensures Load(map[]).groups == map[]
  {
  }

  /** A guarded run after which joining, uploading and ending a share are answered differently. */
  lemma MembersAnsweredDifferently(h: PasswordHash) returns (n: Cluster)
    ensures Reachable(h, n) && n[0].up && n[1].up
    ensures Disagree(h, n, JoinGroup("demo", "bob"))
    ensures Disagree(h, n, Upload("hash", "1", "demo", "alice", "a.txt", "/a.txt"))
    ensures Disagree(h, n, StopShare("demo", "a.txt", "alice"))
  {
    EmptyCache();
    n := DemoScene(h);
    DemoPermits(n[1].state);
    UnknownGroup(h, n, JoinGroup("demo", "bob"));
    UnknownGroup(h, n, Upload("hash", "1", "demo", "alice", "a.txt", "/a.txt"));
    UnknownGroup(h, n, StopShare("demo", "a.txt", "alice"));
  }

  /** Guarded runs after which accepting a request, and leaving, are answered differently. */
  lemma RequestsAnsweredDifferently(h: PasswordHash) returns (asked: Cluster, joined: Cluster)
    ensures Reachable(h, asked) && asked[0].up && asked[1].up
    ensures Reachable(h, joined) && joined[0].up && joined[1].up
    ensures Disagree(h, asked, AcceptRequest("demo", "bob", "alice"))
    ensures Disagree(h, joined, LeaveGroup("demo", "bob"))
  {
    EmptyCache();
    var founded := DemoScene(h);
    asked := AskToJoin(h, founded, EVERYONE);
    UnknownGroup(h, asked, AcceptRequest("demo", "bob", "alice"));
    joined := AcceptedAtOne(h, asked, EVERYONE);
    BobMayLeave(joined[1].state);
    UnknownGroup(h, joined, LeaveGroup("demo", "bob"));
  }
}
