/**
  File names that clash: exactly when a command makes two files share a name, and what happens to a group's list
  when one does. Without clashes, what the users are promised holds of the bytes.
 */
module Clashes {
  import opened Text
  import opened Store
  import opened Handlers
  import opened View
  import opened Invariants
  import opened Commands
  import opened Names
  import opened Replication
  import opened Guarantees
  import opened Directory
  import opened Scripts
  import opened ByteRuns
  import opened Scenes

  /******* Exactly when names stay distinct *******/

  ghost predicate NoClash(ps: set<Path>, qs: set<Path>) {
    forall p, q :: p in ps && q in qs ==> !Clash(p, q) && !Clash(q, p)
  }

  lemma TouchedDistinct(d: Disk, d': Disk, pushed: seq<Path>, files: set<Path>)
    requires DistinctNames(d) && Touches(d, d', pushed) && BASE <= d.Keys
    requires forall p :: p in pushed && p !in BASE <==> p in files
    ensures DistinctNames(d') <==> NoClash(files, d.Keys + files)
  {
    DistinctExactly(d);
    DistinctExactly(d');
    assert forall p :: p in d' <==> p in d.Keys + files;
  }

  /**
    A command leaves the files of a disk with different names exactly when it does not get to act or none of the
    files it opens clashes with another or with one that is there.
   */
  lemma StepDistinctExactly(h: PasswordHash, s: State, c: Command)
    requires BASE <= s.disk.Keys && DistinctNames(s.disk)
    ensures DistinctNames(Step(h, s, c).state.disk) <==> !Acts(s, c) || NoClash(Opens(c), s.disk.Keys + Opens(c))
  {
    var o := Step(h, s, c);
    StepTouches(h, s, c);
    PushedOpens(h, s, c);
    if Opens(c) != {} {
      ActsExactly(h, s, c);
    }
    OutcomeDistinct(s, c, o);
  }

  lemma OutcomeDistinct(s: State, c: Command, o: Outcome)
    requires BASE <= s.disk.Keys && DistinctNames(s.disk) && OutcomeTouches(s, o) && PushesOpened(o, c)
    requires Opens(c) != {} ==> (o.pushed != [] <==> Acts(s, c))
    ensures DistinctNames(o.state.disk) <==> !Acts(s, c) || NoClash(Opens(c), s.disk.Keys + Opens(c))
  {
    if o.pushed == [] {
      TouchedDistinct(s.disk, o.state.disk, [], {});
    } else {
      TouchedDistinct(s.disk, o.state.disk, o.pushed, Opens(c));
    }
  }

  lemma NewGroupClashes(keys: set<Path>, g: string)
    ensures var files := {Members(g), GroupFiles(g)};
            NoClash(files, keys + files) <==> forall p :: p in keys ==> !Clash(Members(g), p) && !Clash(p, GroupFiles(g))
  {
    assert |g + "_files"| != |g|;
  }

  lemma NewUserClashes(keys: set<Path>, u: string)
    ensures var files := {UserFiles(u), Downloading(u), Downloaded(u)};
            NoClash(files, keys + files) <==>
            forall p :: p in keys ==> !Clash(UserFiles(u), p) && !Clash(p, Downloading(u)) && !Clash(p, Downloaded(u))
  {
    assert |u + "_downloading"| != |u| && |u + "_downloaded"| != |u|;
  }

  /** Founding a group: the group is there already, or neither of its files takes another's name. */
  lemma CreateGroupDistinctExactly(h: PasswordHash, s: State, g: string, u: string)
    requires BASE <= s.disk.Keys && DistinctNames(s.disk)
    ensures DistinctNames(DoCreateGroup(s.disk, g, u).state.disk)
       <==> || g in ViewOf(s.disk).owners
            || forall p :: p in s.disk ==> !Clash(Members(g), p) && !Clash(p, GroupFiles(g))
  {
    StepDistinctExactly(h, s, CreateGroup(g, u));
    NewGroupClashes(s.disk.Keys, g);
  }

  /** Signing up: the user is there already, or none of their three files takes another's name. */
  lemma CreateUserDistinctExactly(h: PasswordHash, s: State, u: string, pw: string, port: string, ip: string, salt: string)
    requires BASE <= s.disk.Keys && DistinctNames(s.disk)
    ensures DistinctNames(DoCreateUser(h, s.disk, u, pw, port, ip, salt).state.disk)
       <==> || u in ViewOf(s.disk).users
            || forall p :: p in s.disk ==>
                 !Clash(UserFiles(u), p) && !Clash(p, Downloading(u)) && !Clash(p, Downloaded(u))
  {
    StepDistinctExactly(h, s, CreateUser(u, pw, port, ip, salt));
    NewUserClashes(s.disk.Keys, u);
  }

  /******* A group named after another's list *******/

  lemma {:induction false} UnrollBytes(dir: Directory, e: Edit, es: seq<Edit>)
    ensures AllOnBytes(dir, [e] + es) == AllOnBytes(OnBytes(dir, e), es)
  {
    assert ([e] + es)[1..] == es;
  }

  lemma {:induction false} ThreeOnBytes(dir: Directory, a: Edit, b: Edit, c: Edit)
    ensures AllOnBytes(dir, [a, b, c]) == OnBytes(OnBytes(OnBytes(dir, a), b), c)
  {
    assert [a, b, c] == [a] + ([b] + ([c] + []));
    UnrollBytes(dir, a, [b] + ([c] + []));
    UnrollBytes(OnBytes(dir, a), b, [c] + []);
    UnrollBytes(OnBytes(OnBytes(dir, a), b), c, []);
  }

  lemma {:induction false} SecondWins(dir: Directory, a: Edit, b: Edit, c: Edit, p: Path)
    requires b.Rewrite? && FileName(b.path) == FileName(p) && FileName(c.path) != FileName(p)
    ensures Bytes(AllOnBytes(dir, [a, b, c]), p) == Render(b.content)
  {
    ThreeOnBytes(dir, a, b, c);
  }

  lemma {:induction false} OthersStay(dir: Directory, a: Edit, b: Edit, c: Edit, p: Path)
    requires FileName(a.path) != FileName(p) && FileName(b.path) != FileName(p) && FileName(c.path) != FileName(p)
    ensures Bytes(AllOnBytes(dir, [a, b, c]), p) == Bytes(dir, p)
  {
    ThreeOnBytes(dir, a, b, c);
  }

  lemma FoundingEdits(h: PasswordHash, s: State, g: string, u: string)
    requires g !in ViewOf(s.disk).owners
    ensures Edits(h, s, CreateGroup(g, u))
         == [AddLine(Groups, [g, u]), Rewrite(Members(g), [[u]]), Rewrite(GroupFiles(g), [])]
  {
    LoadIsTrue(s.disk);
  }

  lemma OneName(u: string)
    requires Token(u)
    ensures Parse(Render([[u]])) == [[u]]
  {
    var file := [[u]];
    assert forall i :: 0 <= i < |file| ==> |file[i]| >= 1 && Free(file[i], ' ') && Free(file[i], '\n');
    ParseUndoesRender(file);
  }

  /** How the names of the founded group's files relate to the rest. */
  lemma FoundingNames(g: string, p: Path)
    requires GroupName(g) && PlainPath(p) && p != GroupFiles(g) && p != Groups
    ensures FileName(Members(g + "_files")) == FileName(GroupFiles(g)) != FileName(p)
    ensures FileName(GroupFiles(g + "_files")) != FileName(GroupFiles(g))
    ensures FileName(GroupFiles(g + "_files")) != FileName(p) && FileName(Groups) != FileName(p)
  {
    FileNamesClashExactly(Members(g + "_files"), GroupFiles(g));
    PlainPathsDiffer(GroupFiles(g), p);
    PlainPathsDiffer(Groups, p);
    ListOfTheList(g, GroupFiles(g));
    ListOfTheList(g, p);
  }

  /**
    Founding a group named after another's list: in the bytes, that list now reads as the founder's name, and
    every other file but the list of groups is what it was.
   */
  lemma ClashOverwritesList(h: PasswordHash, s: State, g: string, u: string, p: Path)
    requires DistinctNames(s.disk) && Token(u) && g + "_files" !in ViewOf(s.disk).owners
    requires PlainPath(p) && GroupName(g) && p != GroupFiles(g) && p != Groups
    ensures var dir := AllOnBytes(DirOf(s.disk), Edits(h, s, CreateGroup(g + "_files", u)));
            Parse(Bytes(dir, GroupFiles(g))) == [[u]] && Bytes(dir, p) == Bytes(DirOf(s.disk), p)
  {
    var name, dir := g + "_files", DirOf(s.disk);
    var a, b, c := AddLine(Groups, [name, u]), Rewrite(Members(name), [[u]]), Rewrite(GroupFiles(name), []);
    FoundingEdits(h, s, name, u);
    FoundingNames(g, p);
    SecondWins(dir, a, b, c, GroupFiles(g));
    OthersStay(dir, a, b, c, p);
    OneName(u);
  }

  lemma ListOfTheList(g: string, p: Path)
    requires PlainPath(p)
    ensures FileName(GroupFiles(g + "_files")) != FileName(p)
  {
    var q := GroupFiles(g + "_files");
    if p != q {
      FileNamesClashExactly(p, q);
      PlainNoClash(p, q);
    } else {
      TaggedEndsWith(g, "_files");
    }
  }

  /******* A run that clashes *******/

  /** A first upload to a group without files. */
  lemma FirstUpload(s: State, hash: string, size: string, g: string, u: string, name: string, path: string)
    requires g in s.cache.groups && u in MembersOf(s.disk, g) && Read(s.disk, GroupFiles(g)) == []
    ensures DoUpload(s, hash, size, g, u, name, path).state.disk == Share(s.disk, hash, size, g, u, name, path)
  {
  }

  lemma ShareShares(d: Disk, hash: string, size: string, g: string, u: string, name: string, path: string)
    ensures var d' := Share(d, hash, size, g, u, name, path);
            Shares(d', u, g, name) && GroupFiles(g) in d' && ViewOf(d').owners == ViewOf(d).owners
  {
    ShareView(d, hash, size, g, u, name, path);
    SharesIsEntry(Share(d, hash, size, g, u, name, path), u, g, name);
  }

  lemma UploadRuns(s: State)
    requires DiskInv(s.disk) && ViewOf(s.disk) == Demo() && s.cache == Load(s.disk)
    ensures var d' := DoUpload(s, "hash", "1", "demo", "alice", "a.txt", "/home").state.disk;
            && Shares(d', "alice", "demo", "a.txt") && GroupFiles("demo") in d'
            && ViewOf(d').owners == map["demo" := "alice"]
  {
    LoadIsTrue(s.disk);
    NoLines(s.disk, "demo", "alice");
    MembersAt(s.disk, "demo");
    assert ("demo", "alice") in ViewOf(s.disk).members;
    FirstUpload(s, "hash", "1", "demo", "alice", "a.txt", "/home");
    ShareShares(s.disk, "hash", "1", "demo", "alice", "a.txt", "/home");
  }

  lemma UploadProper()
    ensures Proper(Upload("hash", "1", "demo", "alice", "a.txt", "/home"))
  {
    DemoNames();
  }

  /** Alice shares one file in her group. */
  lemma SharedScene(h: PasswordHash) returns (n: Cluster)
    ensures Reachable(h, n) && SystemInv(n) && n[0].up && n[1].up
    ensures Shares(n[1].state.disk, "alice", "demo", "a.txt") && GroupFiles("demo") in n[1].state.disk
    ensures ViewOf(n[1].state.disk).owners == map["demo" := "alice"]
  {
    n := DemoScene(h);
    var s := n[1].state;
    UploadProper();
    UploadRuns(s);
    n := Next(h, n, 1, Upload("hash", "1", "demo", "alice", "a.txt", "/home"),
              DoUpload(s, "hash", "1", "demo", "alice", "a.txt", "/home"));
  }

  /** What the bytes of a directory say of group `g`'s list and user `u`'s own list. */
  ghost predicate ListedInBytes(dir: Directory, g: string, u: string, f: string) {
    exists r :: r in Parse(Bytes(dir, GroupFiles(g))) && Field(r, 2) == u && Field(r, 3) == f
  }

  ghost predicate SharedInBytes(dir: Directory, u: string, g: string, f: string) {
    exists r :: r in Parse(Bytes(dir, UserFiles(u))) && Field(r, 0) == g && Field(r, 1) == f
  }

  lemma LineOfAName(dir: Directory, g: string, u: string, x: string, f: string)
    requires Parse(Bytes(dir, GroupFiles(g))) == [[u]] && f != ""
    ensures !ListedInBytes(dir, g, x, f)
  {
  }

  /** After the clash nobody is listed for a file of the group any more, but everyone still shares what they did. */
  lemma ClashSplits(h: PasswordHash, s: State, g: string, u: string, x: string, f: string, name: string)
    requires Tidy(s.disk) && GroupName(g) && Token(u) && UserName(x) && f != ""
    requires name == g + "_files" && name !in ViewOf(s.disk).owners && Shares(s.disk, x, g, f)
    ensures DistinctNames(s.disk)
    ensures var dir := AllOnBytes(DirOf(s.disk), Edits(h, s, CreateGroup(name, u)));
            SharedInBytes(dir, x, g, f) && !ListedInBytes(dir, g, x, f)
  {
    BytesAreRecords(s.disk, UserFiles(x));
    ClashOverwritesList(h, s, g, u, UserFiles(x));
    LineOfAName(AllOnBytes(DirOf(s.disk), Edits(h, s, CreateGroup(name, u))), g, u, x, f);
  }

  lemma ClashSharesAName(h: PasswordHash, s: State, g: string, u: string, name: string)
    requires BASE <= s.disk.Keys && DistinctNames(s.disk) && GroupFiles(g) in s.disk
    requires name == g + "_files" && name !in ViewOf(s.disk).owners
    ensures !DistinctNames(Step(h, s, CreateGroup(name, u)).state.disk)
  {
    var c := CreateGroup(name, u);
    LoadIsTrue(s.disk);
    StepDistinctExactly(h, s, c);
    assert Clash(Members(name), GroupFiles(g));
    assert Members(name) in Opens(c) && GroupFiles(g) in s.disk.Keys + Opens(c);
  }

  lemma DemoFiles(s: State)
    requires ViewOf(s.disk).owners == map["demo" := "alice"]
    ensures "demo_files" == "demo" + "_files" && "demo_files" !in ViewOf(s.disk).owners
  {
    assert |"demo_files"| != |"demo"|;
  }

  /**
    After a guarded run, founding the group "demo_files" overwrites the file list of group "demo": in the bytes
    the two indexes disagree, and the disk has two files of one name.
   */
  lemma ClashSplitsIndexes(h: PasswordHash) returns (n: Cluster)
    requires TokenHash(h)
    ensures Reachable(h, n) && n[0].up && n[1].up && DistinctNames(n[1].state.disk)
    ensures var c := CreateGroup("demo_files", "alice");
            var dir := AllOnBytes(DirOf(n[1].state.disk), Edits(h, n[1].state, c));
            && SharedInBytes(dir, "alice", "demo", "a.txt") && !ListedInBytes(dir, "demo", "alice", "a.txt")
            && !DistinctNames(Step(h, n[1].state, c).state.disk)
  {
    n := SharedScene(h);
    ReachableOrderly(h, n);
    DemoNames();
    DemoFiles(n[1].state);
    ClashSplits(h, n[1].state, "demo", "alice", "alice", "a.txt", "demo_files");
    ClashSharesAName(h, n[1].state, "demo", "alice", "demo_files");
  }

  /******* What the users are promised, in bytes *******/

  lemma ReachableTidy(h: PasswordHash, s: State)
    requires ReachableUp(h, s) && TokenHash(h)
    ensures Tidy(s.disk)
  {
    var n: Cluster, i :| Reachable(h, n) && 0 <= i < 2 && n[i] == Node(true, s);
    ReachableOrderly(h, n);
  }

  /** On the directory of every reachable tracker, for proper names, the two indexes agree line by line. */
  lemma IndexesAgreeInBytes(h: PasswordHash, s: State, g: string, u: string, f: string)
    requires ReachableUp(h, s) && TokenHash(h) && GroupName(g) && UserName(u)
    ensures DistinctNames(s.disk)
    ensures ListedInBytes(DirOf(s.disk), g, u, f) <==> SharedInBytes(DirOf(s.disk), u, g, f)
  {
    ReachableTidy(h, s);
    IndexesAgree(h, s, g, u, f);
    BytesAreRecords(s.disk, GroupFiles(g));
    BytesAreRecords(s.disk, UserFiles(u));
  }
}
