/**
  A restart whose catch-up comes before the listener: the tracker stays behind, and the next command it serves
  pushes its old files over the survivor's.
 */
module LostUpdates {
  import opened Store
  import opened Handlers
  import opened View
  import opened Invariants
  import opened Commands
  import opened Names
  import opened Replication
  import opened Scenes

  lemma CrashOne(h: PasswordHash, n: Cluster) returns (n': Cluster)
    requires Reachable(h, n) && SystemInv(n) && n[0].up && n[1].up
    ensures Reachable(h, n') && SystemInv(n')
    ensures n'[0] == n[0] && n'[1] == n[1].(up := false)
  {
    n' := Apply(h, n, Crash(1));
    Extend(h, n, Crash(1));
    EventSystem(h, n, Crash(1));
  }

  lemma ServeAlone(h: PasswordHash, n: Cluster, cmd: Command) returns (n': Cluster)
    requires Reachable(h, n) && SystemInv(n) && n[0].up && !n[1].up && Proper(cmd) && Safe(n[0].state, cmd)
    ensures Reachable(h, n') && SystemInv(n')
    ensures n'[0] == Node(true, Step(h, n[0].state, cmd).state) && n'[1] == n[1]
  {
    n' := Apply(h, n, Run(0, cmd));
    Extend(h, n, Run(0, cmd));
    RunSystem(h, n, 0, cmd);
    RunReplicated(h, n, 0, cmd);
  }

  lemma OneDown(h: PasswordHash) returns (n: Cluster)
    ensures Reachable(h, n) && SystemInv(n) && n[0].up && !n[1].up
    ensures n[1].state.disk == n[0].state.disk && ViewOf(n[0].state.disk) == Registered({})
  {
    n := BothUp(h);
    n := CrashOne(h, n);
  }

  lemma FirstSignUp(h: PasswordHash, s: State, u: string, o: Outcome)
    requires DiskInv(s.disk) && ViewOf(s.disk) == Registered({}) && o == Step(h, s, SignUpOf(u))
    ensures ViewOf(o.state.disk).users == {u} && Safe(s, SignUpOf(u))
  {
    SignUpRuns(h, s, u, {});
  }

  /** Tracker 1 is down since before Alice signed up at tracker 0. */
  lemma AliceSignsUp(h: PasswordHash) returns (n: Cluster)
    ensures Reachable(h, n) && SystemInv(n) && n[0].up && !n[1].up
    ensures ViewOf(n[0].state.disk).users == {"alice"}
    ensures DiskInv(n[1].state.disk) && ViewOf(n[1].state.disk) == Registered({})
  {
    DemoNames();
    SignUpProper("alice");
    n := OneDown(h);
    FirstSignUp(h, n[0].state, "alice", Step(h, n[0].state, SignUpOf("alice")));
    n := ServeAlone(h, n, SignUpOf("alice"));
  }

  /** A restart to which nothing is sent in time. */
  lemma RestartWithNothing(h: PasswordHash, n: Cluster) returns (n': Cluster)
    requires n[0].up && !n[1].up && BASE <= n[1].state.disk.Keys
    ensures n' == Apply(h, n, Restart(1, {}))
    ensures n'[0] == n[0] && n'[1].up && n'[1].state.disk == n[1].state.disk
  {
    n' := Apply(h, n, Restart(1, {}));
    WithBaseSame(n[1].state.disk);
    assert CatchUp(n[1].state.disk, n[0].state.disk, {}) == n[1].state.disk;
  }

  lemma SecondIn(a: Path, b: Path, c: Path, d: Path, e: Path, pushed: seq<Path>)
    requires pushed == [a, b, c, d, e]
    ensures b in pushed
  {
    assert pushed[1] == b;
  }

  lemma SignUpPushesCredentials(h: PasswordHash, s: State, u: string)
    requires u !in ViewOf(s.disk).users
    ensures Credentials in DoCreateUser(h, s.disk, u, "secret", "20001", "10.0.0.5", SALT).pushed
  {
    SignUpPushed(h, s.disk, u, "secret", "20001", "10.0.0.5", SALT);
    SecondIn(Online, Credentials, UserFiles(u), Downloading(u), Downloaded(u),
             DoCreateUser(h, s.disk, u, "secret", "20001", "10.0.0.5", SALT).pushed);
  }

  lemma {:induction false} PushedCredentials(d: Disk, other: Disk, pushed: seq<Path>)
    requires Credentials in pushed && forall p :: p in pushed ==> p in d
    ensures ViewOf(Push(d, other, pushed)).users == ViewOf(d).users
  {
    PushCopies(d, other, pushed);
  }

  /** A sign-up pushes the whole credentials file over the sibling's. */
  lemma {:induction false} SignUpPushes(h: PasswordHash, s: State, other: Disk, u: string, o: Outcome)
    requires DiskInv(s.disk) && ViewOf(s.disk) == Registered({}) && o == Step(h, s, SignUpOf(u))
    ensures ViewOf(o.state.disk).users == {u} && ViewOf(Push(o.state.disk, other, o.pushed)).users == {u}
  {
    FirstSignUp(h, s, u, o);
    StepTouches(h, s, SignUpOf(u));
    SignUpPushesCredentials(h, s, u);
    PushedCredentials(o.state.disk, other, o.pushed);
  }

  lemma ServeOverOld(h: PasswordHash, n: Cluster, cmd: Command) returns (n': Cluster)
    requires n[0].up && n[1].up
    ensures n' == Apply(h, n, Run(1, cmd))
    ensures var o := Step(h, n[1].state, cmd);
            && n'[1].state.disk == o.state.disk
            && n'[0].state.disk == Push(o.state.disk, n[0].state.disk, o.pushed)
  {
    n' := Apply(h, n, Run(1, cmd));
  }

  /**
    After a guarded run, tracker 1 restarts too early: both are up with different disks. When Bob then signs
    up at tracker 1, Alice's account is gone from both.
   */
  lemma EarlyRestartLosesAccounts(h: PasswordHash) returns (n: Cluster, level: Cluster, lost: Cluster)
    ensures Reachable(h, n) && n[0].up && !n[1].up
    ensures level == Apply(h, n, Restart(1, {})) && level[0].up && level[1].up
    ensures level[0].state.disk != level[1].state.disk && "alice" in ViewOf(level[0].state.disk).users
    ensures lost == Apply(h, level, Run(1, SignUpOf("bob")))
    ensures "alice" !in ViewOf(lost[0].state.disk).users && "alice" !in ViewOf(lost[1].state.disk).users
  {
    n := AliceSignsUp(h);
    level := RestartWithNothing(h, n);
    SignUpPushes(h, level[1].state, level[0].state.disk, "bob", Step(h, level[1].state, SignUpOf("bob")));
    lost := ServeOverOld(h, level, SignUpOf("bob"));
  }
}
