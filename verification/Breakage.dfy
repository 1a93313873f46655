/**
  Why commands must be safe: guarded runs followed by unsafe commands after which two files of a group share a
  hash, a file has two names, the two indexes disagree, and a group is owned by nobody.
 */
module Breakage {
  import opened Store
  import opened Handlers
  import opened View
  import opened Invariants
  import opened Commands
  import opened Names
  import opened Replication
  import opened Guarantees
  import opened Scenes
  import opened StaleCache

  /** Two lines of the group carry one hash under different names. */
  ghost predicate TwoNames(d: Disk, g: string) {
    exists r, q :: r in Read(d, GroupFiles(g)) && q in Read(d, GroupFiles(g))
                   && Field(r, 0) == Field(q, 0) && Field(r, 3) != Field(q, 3)
  }

  /** Any command at tracker 1, safe or not. */
  lemma Then(h: PasswordHash, n: Cluster, cmd: Command) returns (n': Cluster)
    requires Replicated(n) && n[0].up && n[1].up
    ensures n' == Apply(h, n, Run(1, cmd)) && Replicated(n') && n'[0].up && n'[1].up
    ensures n'[1].state == Step(h, n[1].state, cmd).state
  {
    n' := Apply(h, n, Run(1, cmd));
    RunReplicated(h, n, 1, cmd);
  }

  /** Two commands in a row at tracker 1. */
  function Two(first: Command, second: Command): seq<Event> {
    [Run(1, first), Run(1, second)]
  }

  lemma ThenTwo(h: PasswordHash, n: Cluster, first: Command, second: Command) returns (n': Cluster)
    requires Replicated(n) && n[0].up && n[1].up
    ensures ValidRun(h, n, Two(first, second)) && n' == Final(h, n, Two(first, second))
    ensures n'[1].state == Step(h, Step(h, n[1].state, first).state, second).state
  {
    var n1 := Then(h, n, first);
    n' := Then(h, n1, second);
    OneMore(h, n1, Run(1, second), []);
    OneMore(h, n, Run(1, first), [Run(1, second)]);
    assert [Run(1, second)] + [] == [Run(1, second)];
    assert [Run(1, first)] + [Run(1, second)] == Two(first, second);
  }

  lemma {:induction false} OneMore(h: PasswordHash, n: Cluster, e: Event, rest: seq<Event>)
    requires Enabled(n, e) && ValidRun(h, Apply(h, n, e), rest)
    ensures ValidRun(h, n, [e] + rest) && Final(h, n, [e] + rest) == Final(h, Apply(h, n, e), rest)
  {
    assert ([e] + rest)[1..] == rest;
  }

  /** An `add_file` of a file nobody lists, by a user without files. */
  lemma AddFirst(d: Disk, g: string, name: string, path: string, u: string)
    requires BASE <= d.Keys && Read(d, GroupFiles(g)) == [] && Read(d, UserFiles(u)) == []
    ensures DoAddFile(d, g, name, path, u).state.disk == Share(d, "", "", g, u, name, path)
  {
    WithBaseSame(d);
  }

  /******* Two files without a hash *******/

  lemma AddSecond(d: Disk, g: string, u: string, a: string, b: string, path: string)
    requires BASE <= d.Keys && a != b
    requires Read(d, GroupFiles(g)) == [["", "", u, a]] && Read(d, UserFiles(u)) == [[g, a, path]]
    ensures TwoNames(DoAddFile(d, g, b, path, u).state.disk, g)
  {
    WithBaseSame(d);
    var files, own := Read(d, GroupFiles(g)), Read(d, UserFiles(u));
    assert Field(files[0], 3) == a && Field(own[0], 1) == a;
    var d' := Share(d, "", "", g, u, b, path);
    assert FindFirst(files, ByField(3, b)) == [];
    assert DoAddFile(d, g, b, path, u).state.disk == d';
    var r, q := ["", "", u, a], ["", "", u, b];
    assert Read(d', GroupFiles(g)) == [r, q];
    assert Field(r, 0) == Field(q, 0) && Field(r, 3) != Field(q, 3);
  }

  lemma FirstIsSafe(d: Disk)
    requires ViewOf(d) == Demo()
    ensures SafeAddFile(ViewOf(d), "demo", "a.txt", "alice")
  {
    assert ("demo", "alice") in ViewOf(d).members;
  }

  lemma UnlistedRuns(d: Disk)
    requires DiskInv(d) && ViewOf(d) == Demo()
    ensures var d' := DoAddFile(d, "demo", "a.txt", "/home", "alice").state.disk;
            && Read(d', GroupFiles("demo")) == [["", "", "alice", "a.txt"]]
            && Read(d', UserFiles("alice")) == [["demo", "a.txt", "/home"]]
  {
    NoLines(d, "demo", "alice");
    AddFirst(d, "demo", "a.txt", "/home", "alice");
  }

  lemma AddFileProper()
    ensures Proper(AddFile("demo", "a.txt", "/home", "alice"))
  {
    DemoNames();
  }

  /** After a guarded run, a second `add_file` of an unlisted file gives one hash two names. */
  lemma UnlistedFilesShareAHash(h: PasswordHash) returns (n: Cluster, n': Cluster)
    ensures Reachable(h, n) && n[0].up && n[1].up
    ensures n' == Apply(h, n, Run(1, AddFile("demo", "b.txt", "/home", "alice")))
    ensures TwoNames(n'[1].state.disk, "demo")
  {
    n := DemoScene(h);
    var d := n[1].state.disk;
    FirstIsSafe(d);
    AddFileProper();
    UnlistedRuns(d);
    n := Next(h, n, 1, AddFile("demo", "a.txt", "/home", "alice"), DoAddFile(d, "demo", "a.txt", "/home", "alice"));
    AddSecond(n[1].state.disk, "demo", "alice", "a.txt", "b.txt", "/home");
    n' := Then(h, n, AddFile("demo", "b.txt", "/home", "alice"));
  }

  /******* An add_file before the sign-up *******/

  lemma SignUpForgets(h: PasswordHash, d: Disk, u: string, g: string)
    requires BASE <= d.Keys && u !in ViewOf(d).users
    ensures var d' := DoCreateUser(h, d, u, "secret", "20001", "10.0.0.5", SALT).state.disk;
            Read(d', UserFiles(u)) == [] && Read(d', GroupFiles(g)) == Read(d, GroupFiles(g))
  {
    LoadIsTrue(d);
    WithBaseSame(d);
    WithBaseSame(NewUser(h, d, u, "secret", "20001", "10.0.0.5", SALT));
  }

  lemma StrangerAdds(d: Disk)
    requires DiskInv(d) && ViewOf(d) == Demo()
    ensures var d' := DoAddFile(d, "demo", "a.txt", "/home", "carol").state.disk;
            && BASE <= d'.Keys
            && Read(d', GroupFiles("demo")) == [["", "", "carol", "a.txt"]]
            && "carol" !in ViewOf(d').users
  {
    NoLines(d, "demo", "carol");
    AddFirst(d, "demo", "a.txt", "/home", "carol");
    ShareView(d, "", "", "demo", "carol", "a.txt", "/home");
  }

  lemma ListedWithoutSharing(d: Disk, g: string, u: string, f: string)
    requires Read(d, GroupFiles(g)) == [["", "", u, f]] && Read(d, UserFiles(u)) == []
    ensures Listed(d, g, u, f) && !Shares(d, u, g, f)
  {
    var r := ["", "", u, f];
    assert r in Read(d, GroupFiles(g)) && Field(r, 2) == u && Field(r, 3) == f;
  }

  lemma SplitByStranger(h: PasswordHash, d: Disk, d': Disk, d'': Disk)
    requires DiskInv(d) && ViewOf(d) == Demo()
    requires d' == DoAddFile(d, "demo", "a.txt", "/home", "carol").state.disk
    requires d'' == DoCreateUser(h, d', "carol", "secret", "20001", "10.0.0.5", SALT).state.disk
    ensures Listed(d'', "demo", "carol", "a.txt") && !Shares(d'', "carol", "demo", "a.txt")
  {
    StrangerAdds(d);
    SignUpForgets(h, d', "carol", "demo");
    ListedWithoutSharing(d'', "demo", "carol", "a.txt");
  }

  lemma StrangerSteps(h: PasswordHash, s: State, s': State)
    ensures Step(h, s, AddFile("demo", "a.txt", "/home", "carol"))
         == DoAddFile(s.disk, "demo", "a.txt", "/home", "carol")
    ensures Step(h, s', SignUpOf("carol")) == DoCreateUser(h, s'.disk, "carol", "secret", "20001", "10.0.0.5", SALT)
  {
  }

  /**
    After a guarded run, an `add_file` by somebody without an account, who then signs up, leaves them listed
    for a file that their own list does not have.
   */
  lemma AddBeforeSignUpSplitsIndexes(h: PasswordHash) returns (n: Cluster, n': Cluster)
    ensures Reachable(h, n) && n[0].up && n[1].up
    ensures var events := Two(AddFile("demo", "a.txt", "/home", "carol"), SignUpOf("carol"));
            ValidRun(h, n, events) && n' == Final(h, n, events)
    ensures Listed(n'[1].state.disk, "demo", "carol", "a.txt") && !Shares(n'[1].state.disk, "carol", "demo", "a.txt")
  {
    n := DemoScene(h);
    n' := ThenTwo(h, n, AddFile("demo", "a.txt", "/home", "carol"), SignUpOf("carol"));
    var s' := Step(h, n[1].state, AddFile("demo", "a.txt", "/home", "carol")).state;
    StrangerSteps(h, n[1].state, s');
    SplitByStranger(h, n[1].state.disk, s'.disk, n'[1].state.disk);
  }

  /******* A file without a name *******/

  lemma SecondName(s: State, u: string)
    requires "demo" in s.cache.groups && u in MembersOf(s.disk, "demo") && u != "alice"
    requires Read(s.disk, GroupFiles("demo")) == [["hash", "1", "alice", ""]]
    ensures TwoNames(DoUpload(s, "hash", "1", "demo", u, "b.txt", "/home").state.disk, "demo")
  {
    var files := Read(s.disk, GroupFiles("demo"));
    var r, q := files[0], ["hash", "1", u, "b.txt"];
    assert Field(r, 0) == "hash" && Field(r, 2) == "alice" && Field(r, 3) == "";
    assert FindFirst(files, ByField(0, "hash")) == r;
    var d' := DoUpload(s, "hash", "1", "demo", u, "b.txt", "/home").state.disk;
    assert Read(d', GroupFiles("demo")) == [r, q];
    assert Field(q, 0) == "hash" && Field(q, 3) == "b.txt";
  }

  lemma NamelessRuns(s: State)
    requires DiskInv(s.disk) && ViewOf(s.disk) == Joined(EVERYONE) && "demo" in s.cache.groups
    ensures var s' := DoUpload(s, "hash", "1", "demo", "alice", "", "").state;
            && s'.cache == s.cache
            && Read(s'.disk, GroupFiles("demo")) == [["hash", "1", "alice", ""]]
            && "bob" in MembersOf(s'.disk, "demo")
  {
    var d' := Share(s.disk, "hash", "1", "demo", "alice", "", "");
    assert ("demo", "alice") in Joined(EVERYONE).members && ("demo", "bob") in Joined(EVERYONE).members;
    NamelessUpload(s, "hash", "1", "demo", "alice", "");
    NoLines(s.disk, "demo", "alice");
    MembersAt(s.disk, "demo");
    assert Read(d', Members("demo")) == Read(s.disk, Members("demo"));
  }

  /** Bob is a member, and tracker 1 knows the group. */
  lemma JoinedScene(h: PasswordHash) returns (n: Cluster)
    ensures Scene(h, n, Joined(EVERYONE)) && Remembers(n[1].state.cache)
  {
    n := DemoScene(h);
    n := AskToJoin(h, n, EVERYONE);
    n := AcceptedAtOne(h, n, EVERYONE);
  }

  lemma UploadSteps(h: PasswordHash, s: State, s': State)
    ensures Step(h, s, Upload("hash", "1", "demo", "alice", "", ""))
         == DoUpload(s, "hash", "1", "demo", "alice", "", "")
    ensures Step(h, s', Upload("hash", "1", "demo", "bob", "b.txt", "/home"))
         == DoUpload(s', "hash", "1", "demo", "bob", "b.txt", "/home")
  {
  }

  lemma NamedTwice(s: State, s': State, s'': State)
    requires DiskInv(s.disk) && ViewOf(s.disk) == Joined(EVERYONE) && "demo" in s.cache.groups
    requires s' == DoUpload(s, "hash", "1", "demo", "alice", "", "").state
    requires s'' == DoUpload(s', "hash", "1", "demo", "bob", "b.txt", "/home").state
    ensures TwoNames(s''.disk, "demo")
  {
    NamelessRuns(s);
    SecondName(s', "bob");
  }

  /** After a guarded run, an upload without a name lets the next upload of that file give it a second one. */
  lemma NamelessUploadGetsTwoNames(h: PasswordHash) returns (n: Cluster, n': Cluster)
    ensures Reachable(h, n) && n[0].up && n[1].up
    ensures var events := Two(Upload("hash", "1", "demo", "alice", "", ""),
                              Upload("hash", "1", "demo", "bob", "b.txt", "/home"));
            ValidRun(h, n, events) && n' == Final(h, n, events)
    ensures TwoNames(n'[1].state.disk, "demo")
  {
    n := JoinedScene(h);
    n' := ThenTwo(h, n, Upload("hash", "1", "demo", "alice", "", ""),
                  Upload("hash", "1", "demo", "bob", "b.txt", "/home"));
    var s' := Step(h, n[1].state, Upload("hash", "1", "demo", "alice", "", "")).state;
    UploadSteps(h, n[1].state, s');
    NamedTwice(n[1].state, s', n'[1].state);
  }

  /******* A group founded by nobody *******/

  lemma StrangerFounds(d: Disk)
    requires DiskInv(d) && ViewOf(d).owners == map["demo" := "alice"] && "carol" !in ViewOf(d).users
    ensures var d' := DoCreateGroup(d, "club", "carol").state.disk;
            "carol" in MembersOf(d', "club") && "carol" !in ViewOf(d').users
  {
    LoadIsTrue(d);
    WithBaseSame(d);
    var d' := NewGroup(d, "club", "carol");
    NewGroupView(d, "club", "carol");
    WithBaseSame(d');
    MembersAt(d', "club");
    assert ("club", "carol") in ViewOf(d').members;
  }

  lemma StrangerFoundsStep(h: PasswordHash, s: State, s': State)
    requires DiskInv(s.disk) && ViewOf(s.disk) == Demo() && s' == Step(h, s, CreateGroup("club", "carol")).state
    ensures "carol" in MembersOf(s'.disk, "club") && "carol" !in ViewOf(s'.disk).users
  {
    StrangerFounds(s.disk);
  }

  /** After a guarded run, a `create_group` by somebody without an account makes them a member all the same. */
  lemma GroupOfAStranger(h: PasswordHash) returns (n: Cluster, n': Cluster)
    ensures Reachable(h, n) && n[0].up && n[1].up
    ensures n' == Apply(h, n, Run(1, CreateGroup("club", "carol")))
    ensures "carol" in MembersOf(n'[1].state.disk, "club") && "carol" !in ViewOf(n'[1].state.disk).users
  {
    n := DemoScene(h);
    n' := Then(h, n, CreateGroup("club", "carol"));
    StrangerFoundsStep(h, n[1].state, n'[1].state);
  }
}
