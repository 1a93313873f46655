/** Building concrete runs of the pair: a guarded run, extended one command at a time, and what its disk holds. */
module Scenes {
  import opened Text
  import opened Store
  import opened Handlers
  import opened View
  import opened Invariants
  import opened Commands
  import opened Names
  import opened Replication

  /******* Extending a run *******/

  lemma {:induction false} RunSnoc(h: PasswordHash, n: Cluster, events: seq<Event>, e: Event)
    requires ValidRun(h, n, events) && Guarded(h, n, events)
    requires Enabled(Final(h, n, events), e) && Allowed(Final(h, n, events), e)
    ensures ValidRun(h, n, events + [e]) && Guarded(h, n, events + [e])
    ensures Final(h, n, events + [e]) == Apply(h, Final(h, n, events), e)
    decreases |events|
  {
    var all := events + [e];
    if events == [] {
      assert all[1..] == [];
    } else {
      assert all[1..] == events[1..] + [e] && all[0] == events[0];
      RunSnoc(h, Apply(h, n, events[0]), events[1..], e);
    }
  }

  lemma Extend(h: PasswordHash, n: Cluster, e: Event)
    requires Reachable(h, n) && Enabled(n, e) && Allowed(n, e)
    ensures Reachable(h, Apply(h, n, e))
  {
    var events :| ValidRun(h, Init(), events) && Guarded(h, Init(), events) && Final(h, Init(), events) == n;
    RunSnoc(h, Init(), events, e);
  }

  /******* Scenes *******/

  /** Both trackers are up after a guarded run, with this view of their common disk. */
  ghost predicate Scene(h: PasswordHash, n: Cluster, v: View) {
    && Reachable(h, n)
    && SystemInv(n)
    && n[0].up && n[1].up
    && ViewOf(n[0].state.disk) == v
  }

  /** One more command at tracker `at`, whose outcome is `o`. */
  lemma Next(h: PasswordHash, n: Cluster, at: nat, cmd: Command, o: Outcome) returns (n': Cluster)
    requires Reachable(h, n) && SystemInv(n) && n[0].up && n[1].up && at < 2
    requires Proper(cmd) && Safe(n[at].state, cmd) && o == Step(h, n[at].state, cmd)
    ensures Reachable(h, n') && SystemInv(n') && n'[0].up && n'[1].up
    ensures n' == Apply(h, n, Run(at, cmd))
    ensures n'[at].state == o.state && n'[Sibling(at)].state == State(o.state.disk, n[Sibling(at)].state.cache)
  {
    n' := Apply(h, n, Run(at, cmd));
    Extend(h, n, Run(at, cmd));
    RunSystem(h, n, at, cmd);
    RunReplicated(h, n, at, cmd);
  }

  /** The view of a disk on which these users, all online, have registered and nothing else has happened. */
  function Registered(users: set<string>): View {
    View(users, map[], {}, users, {}, {}, {}, {})
  }

  lemma InitReachable(h: PasswordHash)
    ensures Reachable(h, Init()) && SystemInv(Init())
  {
    InitSystem();
    var events: seq<Event> := [];
    assert ValidRun(h, Init(), events) && Guarded(h, Init(), events) && Final(h, Init(), events) == Init();
  }

  /** The first start of tracker 1, which has nothing to catch up on. */
  lemma FirstStart(h: PasswordHash) returns (n: Cluster)
    ensures Enabled(Init(), Restart(1, {})) && Behind(Init(), 1) == {}
    ensures n == Apply(h, Init(), Restart(1, {})) && n[0].up && n[1].up
    ensures n[0].state == Refresh(map[])
  {
    n := Apply(h, Init(), Restart(1, {}));
  }

  lemma BothUp(h: PasswordHash) returns (n: Cluster)
    ensures Scene(h, n, Registered({}))
    ensures n[0].state.cache == Load(map[])
  {
    InitReachable(h);
    n := FirstStart(h);
    Extend(h, Init(), Restart(1, {}));
    RestartSystem(h, Init(), 1, {});
    NothingThere(n[0].state.disk);
  }

  lemma NothingThere(d: Disk)
    requires forall p :: p in d ==> d[p] == []
    ensures ViewOf(d) == Registered({})
  {
  }

  /** A salt as the tracker makes them: 32 hexadecimal digits. */
  const SALT := HEX + HEX
  const HEX := "0123456789abcdef"

  /** The sign-ups of the scenes. */
  function SignUpOf(u: string): Command {
    CreateUser(u, "secret", "20001", "10.0.0.5", SALT)
  }

  lemma TokenConcat(a: string, b: string)
    requires Token(a) && Token(b)
    ensures Token(a + b)
  {
  }

  lemma SaltIsToken()
    ensures Token(SALT)
  {
    assert Token(HEX);
    TokenConcat(HEX, HEX);
  }

  lemma SignUpProper(u: string)
    requires UserName(u)
    ensures Proper(SignUpOf(u))
  {
    SaltIsToken();
  }

  lemma SignUpRuns(h: PasswordHash, s: State, u: string, users: set<string>)
    requires DiskInv(s.disk) && ViewOf(s.disk) == Registered(users) && u !in users
    ensures ViewOf(Step(h, s, SignUpOf(u)).state.disk) == Registered(users + {u})
  {
    LoadIsTrue(s.disk);
    WithBaseSame(s.disk);
    NewUserKeeps(h, s.disk, u, "secret", "20001", "10.0.0.5", SALT);
    WithBaseSame(NewUser(h, s.disk, u, "secret", "20001", "10.0.0.5", SALT));
  }

  lemma SignUp(h: PasswordHash, n: Cluster, u: string, users: set<string>) returns (n': Cluster)
    requires Scene(h, n, Registered(users)) && u !in users && UserName(u)
    ensures Scene(h, n', Registered(users + {u}))
    ensures n'[0].state.cache == n[0].state.cache
  {
    var s := n[1].state;
    SignUpProper(u);
    SignUpRuns(h, s, u, users);
    n' := Next(h, n, 1, SignUpOf(u), Step(h, s, SignUpOf(u)));
  }

  /** Alice and Bob have registered, and Alice has founded the group "demo". */
  function Demo(): View {
    View({"alice", "bob"}, map["demo" := "alice"], {("demo", "alice")}, {"alice", "bob"}, {}, {}, {}, {})
  }

  lemma DemoNames()
    ensures GroupName("demo") && UserName("alice") && UserName("bob")
  {
  }

  const EVERYONE: set<string> := {"alice", "bob"}

  /** The same with only these users online. */
  function Founded(online: set<string>): View {
    Demo().(online := online)
  }

  lemma FoundingRuns(s: State)
    requires DiskInv(s.disk) && ViewOf(s.disk) == Registered({"alice", "bob"})
    ensures Proper(CreateGroup("demo", "alice")) && Safe(s, CreateGroup("demo", "alice"))
    ensures var s' := DoCreateGroup(s.disk, "demo", "alice").state;
            ViewOf(s'.disk) == Demo() && s'.cache == Load(s'.disk)
  {
    DemoNames();
    LoadIsTrue(s.disk);
    WithBaseSame(s.disk);
    NewGroupView(s.disk, "demo", "alice");
    WithBaseSame(NewGroup(s.disk, "demo", "alice"));
  }

  lemma FoundGroup(h: PasswordHash, n: Cluster) returns (n': Cluster)
    requires Scene(h, n, Registered({"alice", "bob"}))
    ensures Scene(h, n', Demo())
    ensures n'[0].state.cache == n[0].state.cache && n'[1].state.cache == Load(n'[1].state.disk)
  {
    FoundingRuns(n[1].state);
    n' := Next(h, n, 1, CreateGroup("demo", "alice"), DoCreateGroup(n[1].state.disk, "demo", "alice"));
  }

  lemma TwoUsers(h: PasswordHash) returns (n: Cluster)
    ensures Scene(h, n, Registered({"alice", "bob"}))
    ensures n[0].state.cache == Load(map[])
  {
    DemoNames();
    var one := {"alice"};
    assert {} + {"alice"} == one && one + {"bob"} == {"alice", "bob"} && "bob" !in one;
    n := BothUp(h);
    n := SignUp(h, n, "alice", {});
    n := SignUp(h, n, "bob", one);
  }

  /** Everything so far happened at tracker 1, whose caches are current; those of tracker 0 are still empty. */
  lemma DemoScene(h: PasswordHash) returns (n: Cluster)
    ensures Scene(h, n, Demo())
    ensures n[0].state.cache == Load(map[]) && n[1].state.cache == Load(n[1].state.disk)
  {
    n := TwoUsers(h);
    n := FoundGroup(h, n);
  }

  lemma NoLines(d: Disk, g: string, u: string)
    requires ViewOf(d).listed == {} && ViewOf(d).shared == {}
    ensures Read(d, GroupFiles(g)) == [] && Read(d, UserFiles(u)) == []
  {
    ListedAt(d, g);
    SharedAt(d, u);
    NoEntriesNoLines(Read(d, GroupFiles(g)), g);
    NoEntriesNoLines(Read(d, UserFiles(u)), u);
  }
}
