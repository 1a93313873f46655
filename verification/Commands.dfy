/** Which commands keep the invariant of the disk they run on: exactly the safe ones. */
module Commands {
  import opened Store
  import opened Handlers
  import opened View
  import opened Invariants

  /** Nobody loses an account and no group loses its owner. */
  ghost predicate Grows(v: View, w: View) {
    && v.users <= w.users
    && forall g :: g in v.owners ==> g in w.owners && w.owners[g] == v.owners[g]
  }

  /** A cache may be stale, but what it says about accounts and owners is true of the disk. */
  ghost predicate CacheOk(c: Cache, v: View) {
    && c.credentials.Keys <= v.users
    && forall g :: g in c.groups ==> g in v.owners && v.owners[g] == c.groups[g]
  }

  /** Some line of group `g` carries this hash. */
  ghost predicate HasHash(v: View, g: string, hash: string) {
    exists t :: t in v.named && t.0 == g && t.1 == hash
  }

  /** Some line of group `g` carries this file name. */
  ghost predicate HasName(v: View, g: string, name: string) {
    exists t :: t in v.named && t.0 == g && t.2 == name
  }

  /** User `u`'s own list has the file name, for whatever group. */
  ghost predicate OwnsName(v: View, u: string, name: string) {
    exists t :: t in v.shared && t.1 == u && t.2 == name
  }

  /** An upload writes no line without a file name. */
  ghost predicate SafeUpload(s: State, hash: string, g: string, u: string, name: string) {
    var v := ViewOf(s.disk);
    name != "" || g !in s.cache.groups || (g, u) !in v.members || HasHash(v, g, hash)
  }

  /** `add_file` writes nothing, or comes from a member for a file listed or the only one without a hash. */
  ghost predicate SafeAddFile(v: View, g: string, name: string, u: string) {
    || OwnsName(v, u, name)
    || ((g, u) in v.members && name != "" && (HasName(v, g, name) || !HasHash(v, g, "")))
  }

  /** What a command must satisfy, on the state it meets, to keep the disk in order. */
  ghost predicate Safe(s: State, c: Command) {
    match c
    case CreateGroup(g, u) => g in ViewOf(s.disk).owners || u in ViewOf(s.disk).users
    case Upload(hash, _, g, u, name, _) => SafeUpload(s, hash, g, u, name)
    case AddFile(g, name, _, u) => SafeAddFile(ViewOf(s.disk), g, name, u)
    case _ => true
  }

  /** What a command's outcome keeps. */
  ghost predicate Kept(s: State, o: Outcome) {
    && DiskInv(o.state.disk)
    && CacheOk(o.state.cache, ViewOf(o.state.disk))
    && Grows(ViewOf(s.disk), ViewOf(o.state.disk))
  }

  /******* Reading the disk *******/

  lemma WithBaseSame(d: Disk)
    requires BASE <= d.Keys
    ensures WithBase(d) == d
  {
  }

  lemma {:induction false} PairMapKeys(s: File)
    ensures PairMap(s).Keys == Column(s, 0)
  {
    if s != [] {
      var init, last := s[..|s| - 1], s[|s| - 1];
      PairMapKeys(init);
      BaseContributions(init, last);
      assert s == init + [last];
    }
  }

  lemma LoadIsTrue(d: Disk)
    ensures CacheOk(Load(d), ViewOf(d))
    ensures Load(d).credentials.Keys == ViewOf(d).users && Load(d).groups == ViewOf(d).owners
    ensures Load(d).online == ViewOf(d).online && Load(d).pending == ViewOf(d).pending
  {
    PairMapKeys(Read(d, Credentials));
  }

  /** A command that only refreshes. */
  lemma RefreshKeeps(s: State, reply: Reply)
    requires DiskInv(s.disk)
    ensures Kept(s, Outcome(Refresh(s.disk), reply, []))
    ensures Refresh(s.disk).disk == s.disk
  {
    WithBaseSame(s.disk);
    LoadIsTrue(s.disk);
  }

  /** A command that ends by refreshing. */
  lemma ThenRefreshKeeps(s: State, d: Disk, reply: Reply, pushed: seq<Path>)
    requires DiskInv(d) && Grows(ViewOf(s.disk), ViewOf(d))
    ensures Kept(s, Outcome(Refresh(d), reply, pushed))
    ensures Refresh(d).disk == d
  {
    WithBaseSame(d);
    LoadIsTrue(d);
  }

  /** A command that leaves the caches alone. */
  lemma SameCacheKeeps(s: State, d: Disk, reply: Reply, pushed: seq<Path>)
    requires CacheOk(s.cache, ViewOf(s.disk)) && DiskInv(d) && Grows(ViewOf(s.disk), ViewOf(d))
    ensures Kept(s, Outcome(State(d, s.cache), reply, pushed))
  {
  }

  /******* Handlers *******/

  lemma LoginStep(h: PasswordHash, s: State, u: string, pw: string, port: string, ip: string)
    requires DiskInv(s.disk)
    ensures Kept(s, DoLogin(h, s.disk, u, pw, port, ip))
  {
    RefreshKeeps(s, Silence);
    LoadIsTrue(s.disk);
    var c := Load(s.disk);
    if u in c.credentials && u !in c.online {
      LoginKeeps(s.disk, u, ip, port);
      AppendView(s.disk, Online, [u, ip, port]);
    }
  }

  lemma CreateUserStep(h: PasswordHash, s: State, u: string, pw: string, port: string, ip: string, salt: string)
    requires DiskInv(s.disk)
    ensures Kept(s, DoCreateUser(h, s.disk, u, pw, port, ip, salt))
  {
    RefreshKeeps(s, Silence);
    LoadIsTrue(s.disk);
    if u !in Load(s.disk).credentials {
      NewUserKeeps(h, s.disk, u, pw, port, ip, salt);
      ThenRefreshKeeps(s, NewUser(h, s.disk, u, pw, port, ip, salt), Silence, []);
    }
  }

  /** A sign-up that goes through pushes five files. */
  lemma SignUpPushed(h: PasswordHash, d: Disk, u: string, pw: string, port: string, ip: string, salt: string)
    ensures DoCreateUser(h, d, u, pw, port, ip, salt).pushed
         == if u in ViewOf(d).users then [] else [Online, Credentials, UserFiles(u), Downloading(u), Downloaded(u)]
  {
    LoadIsTrue(d);
  }

  lemma CreateGroupStep(s: State, g: string, u: string)
    requires DiskInv(s.disk) && (g in ViewOf(s.disk).owners || u in ViewOf(s.disk).users)
    ensures Kept(s, DoCreateGroup(s.disk, g, u))
  {
    RefreshKeeps(s, Silence);
    LoadIsTrue(s.disk);
    if g !in Load(s.disk).groups {
      NewGroupKeeps(s.disk, g, u);
      NewGroupView(s.disk, g, u);
      ThenRefreshKeeps(s, NewGroup(s.disk, g, u), Silence, []);
    }
  }

  /** `create_group` keeps the disk in order exactly when the group exists already or its creator is registered. */
  lemma CreateGroupExactly(s: State, g: string, u: string)
    requires DiskInv(s.disk)
    ensures DiskInv(DoCreateGroup(s.disk, g, u).state.disk)
       <==> g in ViewOf(s.disk).owners || u in ViewOf(s.disk).users
  {
    if g in ViewOf(s.disk).owners || u in ViewOf(s.disk).users {
      CreateGroupStep(s, g, u);
    } else {
      RefreshKeeps(s, Silence);
      LoadIsTrue(s.disk);
      NewGroupView(s.disk, g, u);
      WithBaseSame(NewGroup(s.disk, g, u));
      assert (g, u) in ViewOf(NewGroup(s.disk, g, u)).members;
    }
  }

  lemma JoinStep(s: State, g: string, u: string)
    requires DiskInv(s.disk) && CacheOk(s.cache, ViewOf(s.disk))
    ensures Kept(s, DoJoin(s, g, u))
  {
    MembersAt(s.disk, g);
    if g in s.cache.groups && u !in MembersOf(s.disk, g) {
      JoinKeeps(s.disk, g, u);
      AppendView(s.disk, Pending, [u, g]);
    }
  }

  lemma AcceptStep(s: State, g: string, u: string, owner: string)
    requires DiskInv(s.disk) && CacheOk(s.cache, ViewOf(s.disk))
    ensures Kept(s, DoAccept(s, g, u, owner))
  {
    var o := DoAccept(s, g, u, owner);
    if o.pushed == [] {
      SameCacheKeeps(s, s.disk, o.reply, o.pushed);
    } else {
      AdmitKeeps(s.disk, g, u);
      AdmitGrows(s.disk, g, u);
      SameCacheKeeps(s, Admit(s.disk, g, u), o.reply, o.pushed);
    }
  }

  lemma AdmitGrows(d: Disk, g: string, u: string)
    requires ArityOk(d)
    ensures Grows(ViewOf(d), ViewOf(Admit(d, g, u)))
  {
  }

  /** A hash that a group lists keeps the name it has there; any other takes the name given. */
  lemma ListedNameIs(d: Disk, g: string, hash: string, name: string)
    requires NamesOk(ViewOf(d))
    ensures var listed := ListedName(Read(d, GroupFiles(g)), hash, name);
            && (HasHash(ViewOf(d), g, hash) ==> (g, hash, listed) in ViewOf(d).named && listed != "")
            && (!HasHash(ViewOf(d), g, hash) ==> listed == name)
  {
    var s := Read(d, GroupFiles(g));
    var first := FindFirst(s, ByField(0, hash));
    NamedAt(d, g);
    if HasHash(ViewOf(d), g, hash) {
      var t :| t in ViewOf(d).named && t.0 == g && t.1 == hash;
      assert t in NamedIn(g, s);
      var q :| q in s && t == (g, Field(q, 0), Field(q, 3));
      assert Matches(ByField(0, hash), q);
      assert (g, Field(first, 0), Field(first, 3)) in NamedIn(g, s);
    } else {
      forall q | q in s ensures !Matches(ByField(0, hash), q) {
        assert (g, Field(q, 0), Field(q, 3)) in NamedIn(g, s);
      }
    }
  }

  /** The three upload checks together make the new line fit: one name per hash and one hash per name. */
  lemma UploadFits(d: Disk, g: string, u: string, hash: string, name: string)
    requires NamesOk(ViewOf(d)) && (name != "" || HasHash(ViewOf(d), g, hash))
    requires var s := Read(d, GroupFiles(g));
             !Found(s, ByFields(0, hash, 2, u)) && !NameTaken(s, hash, ListedName(s, hash, name))
    ensures var listed := ListedName(Read(d, GroupFiles(g)), hash, name);
            && listed != ""
            && (g, u, listed) !in ViewOf(d).listed
            && forall t :: t in ViewOf(d).named && t.0 == g ==> (t.1 == hash <==> t.2 == listed)
  {
    ListedNameIs(d, g, hash, name);
  }

  lemma UploadStep(s: State, hash: string, size: string, g: string, u: string, name: string, path: string)
    requires DiskInv(s.disk) && CacheOk(s.cache, ViewOf(s.disk)) && SafeUpload(s, hash, g, u, name)
    ensures Kept(s, DoUpload(s, hash, size, g, u, name, path))
  {
    var files := Read(s.disk, GroupFiles(g));
    var listed := ListedName(files, hash, name);
    MembersAt(s.disk, g);
    if g in s.cache.groups && u in MembersOf(s.disk, g)
       && !Found(files, ByFields(0, hash, 2, u)) && !NameTaken(files, hash, listed) {
      UploadFits(s.disk, g, u, hash, name);
      ShareKeeps(s.disk, hash, size, g, u, listed, path);
      ShareView(s.disk, hash, size, g, u, listed, path);
    }
  }

  /** A nameless upload by a member, of a hash the group does not list, is accepted and written as it is. */
  lemma NamelessUpload(s: State, hash: string, size: string, g: string, u: string, path: string)
    requires DiskInv(s.disk) && g in s.cache.groups && (g, u) in ViewOf(s.disk).members
    requires !HasHash(ViewOf(s.disk), g, hash)
    ensures DoUpload(s, hash, size, g, u, "", path).state == State(Share(s.disk, hash, size, g, u, "", path), s.cache)
  {
    var files := Read(s.disk, GroupFiles(g));
    MembersAt(s.disk, g);
    NamedAt(s.disk, g);
    ListedNameIs(s.disk, g, hash, "");
    forall r | r in files ensures Field(r, 0) != hash && Field(r, 3) != "" {
      assert (g, Field(r, 0), Field(r, 3)) in NamedIn(g, files);
    }
  }

  /** `upload_file` keeps the disk in order exactly when it writes no line without a file name. */
  lemma UploadExactly(s: State, hash: string, size: string, g: string, u: string, name: string, path: string)
    requires DiskInv(s.disk) && CacheOk(s.cache, ViewOf(s.disk))
    ensures DiskInv(DoUpload(s, hash, size, g, u, name, path).state.disk) <==> SafeUpload(s, hash, g, u, name)
  {
    if SafeUpload(s, hash, g, u, name) {
      UploadStep(s, hash, size, g, u, name, path);
    } else {
      NamelessUpload(s, hash, size, g, u, path);
      ShareView(s.disk, hash, size, g, u, "", path);
      assert (g, hash, "") in ViewOf(Share(s.disk, hash, size, g, u, "", path)).named;
    }
  }

  lemma StopShareStep(s: State, g: string, name: string, u: string)
    requires DiskInv(s.disk) && CacheOk(s.cache, ViewOf(s.disk))
    ensures Kept(s, DoStopShare(s, g, name, u))
  {
    UnshareKeeps(s.disk, g, name, u);
    UnshareView(s.disk, g, name, u);
  }

  lemma LeaveStep(s: State, g: string, u: string)
    requires DiskInv(s.disk) && CacheOk(s.cache, ViewOf(s.disk))
    ensures Kept(s, DoLeave(s, g, u))
  {
    var o := DoLeave(s, g, u);
    if o.pushed == [] {
      SameCacheKeeps(s, s.disk, o.reply, o.pushed);
    } else {
      DepartKeeps(s.disk, g, u);
      DepartView(s.disk, g, u);
      ThenRefreshKeeps(s, Depart(s.disk, g, u), o.reply, o.pushed);
    }
  }

  lemma GiveShaStep(s: State, g: string, name: string, u: string)
    requires DiskInv(s.disk)
    ensures Kept(s, DoGiveSha(s.disk, g, name, u))
  {
    RefreshKeeps(s, Silence);
    LedgerAppendKeeps(s.disk, Downloading(u), [g, name]);
  }

  lemma CompleteStep(s: State, g: string, name: string, u: string)
    requires DiskInv(s.disk)
    ensures Kept(s, DoComplete(s.disk, g, name, u))
  {
    RefreshKeeps(s, Silence);
    FinishKeeps(s.disk, g, name, u);
  }

  /** The hash `add_file` writes: the one the name has in the group, or none. */
  lemma AddedHash(d: Disk, g: string, name: string)
    requires NamesOk(ViewOf(d))
    ensures var hash := Field(FindFirst(Read(d, GroupFiles(g)), ByField(3, name)), 0);
            && (HasName(ViewOf(d), g, name) ==> (g, hash, name) in ViewOf(d).named)
            && (!HasName(ViewOf(d), g, name) ==> hash == "")
  {
    var s := Read(d, GroupFiles(g));
    var first := FindFirst(s, ByField(3, name));
    NamedAt(d, g);
    if HasName(ViewOf(d), g, name) {
      var t :| t in ViewOf(d).named && t.0 == g && t.2 == name;
      assert t in NamedIn(g, s);
      var q :| q in s && t == (g, Field(q, 0), Field(q, 3));
      assert Matches(ByField(3, name), q);
      assert (g, Field(first, 0), Field(first, 3)) in NamedIn(g, s);
    } else {
      forall q | q in s ensures !Matches(ByField(3, name), q) {
        assert (g, Field(q, 0), Field(q, 3)) in NamedIn(g, s);
      }
    }
  }

  lemma FoundMeansOwned(d: Disk, u: string, name: string)
    ensures Found(Read(d, UserFiles(u)), ByField(1, name)) <==> OwnsName(ViewOf(d), u, name)
  {
    var own := Read(d, UserFiles(u));
    SharedAt(d, u);
    if OwnsName(ViewOf(d), u, name) {
      var t :| t in ViewOf(d).shared && t.1 == u && t.2 == name;
      assert t in SharedBy(u, own);
      var r :| r in own && t == (Field(r, 0), u, Field(r, 1));
      assert exists i :: 0 <= i < |own| && own[i] == r;
    } else {
      forall i | 0 <= i < |own| ensures Field(own[i], 1) != name {
        assert (Field(own[i], 0), u, Field(own[i], 1)) in SharedBy(u, own);
      }
    }
  }

  /** A listed name, or the first line without a hash, and no own entry make the new line fit. */
  lemma AddFileFits(d: Disk, g: string, name: string, u: string)
    requires NamesOk(ViewOf(d)) && IndexesOk(ViewOf(d)) && !OwnsName(ViewOf(d), u, name)
    requires HasName(ViewOf(d), g, name) || !HasHash(ViewOf(d), g, "")
    ensures var hash := Field(FindFirst(Read(d, GroupFiles(g)), ByField(3, name)), 0);
            && (g, u, name) !in ViewOf(d).listed
            && forall t :: t in ViewOf(d).named && t.0 == g ==> (t.1 == hash <==> t.2 == name)
  {
    AddedHash(d, g, name);
  }

  lemma AddFileStep(s: State, g: string, name: string, path: string, u: string)
    requires DiskInv(s.disk) && SafeAddFile(ViewOf(s.disk), g, name, u)
    ensures Kept(s, DoAddFile(s.disk, g, name, path, u))
  {
    var d := s.disk;
    RefreshKeeps(s, Silence);
    FoundMeansOwned(d, u, name);
    var first := FindFirst(Read(d, GroupFiles(g)), ByField(3, name));
    if !OwnsName(ViewOf(d), u, name) {
      AddFileFits(d, g, name, u);
      ShareKeeps(d, Field(first, 0), Field(first, 1), g, u, name, path);
      ShareView(d, Field(first, 0), Field(first, 1), g, u, name, path);
    }
  }

  /** A line that `add_file` may not write breaks the invariant. */
  lemma BadLineBreaks(v: View, w: View, g: string, u: string, hash: string, name: string)
    requires ViewInv(v) && !OwnsName(v, u, name) && !SafeAddFile(v, g, name, u)
    requires HasName(v, g, name) || hash == ""
    requires w == v.(listed := v.listed + {(g, u, name)}, shared := v.shared + {(g, u, name)},
                     named := v.named + {(g, hash, name)})
    ensures !ViewInv(w)
  {
    assert (g, u, name) in w.listed && (g, hash, name) in w.named;
    if (g, u) in v.members && name != "" {
      var t :| t in v.named && t.0 == g && t.1 == "";
      assert t in w.named && t.2 != name;
    }
  }

  /** `add_file` keeps the disk in order exactly when it is safe. */
  lemma AddFileExactly(s: State, g: string, name: string, path: string, u: string)
    requires DiskInv(s.disk)
    ensures DiskInv(DoAddFile(s.disk, g, name, path, u).state.disk) <==> SafeAddFile(ViewOf(s.disk), g, name, u)
  {
    var d := s.disk;
    if SafeAddFile(ViewOf(d), g, name, u) {
      AddFileStep(s, g, name, path, u);
    } else {
      var first := FindFirst(Read(d, GroupFiles(g)), ByField(3, name));
      RefreshKeeps(s, Silence);
      FoundMeansOwned(d, u, name);
      AddedHash(d, g, name);
      ShareView(d, Field(first, 0), Field(first, 1), g, u, name, path);
      BadLineBreaks(ViewOf(d), ViewOf(Share(d, Field(first, 0), Field(first, 1), g, u, name, path)),
                    g, u, Field(first, 0), name);
    }
  }

  lemma LogoutStep(s: State, u: string)
    requires DiskInv(s.disk)
    ensures Kept(s, DoLogout(s.disk, u))
    ensures DoLogout(s.disk, u).reply == Verdict(u in ViewOf(s.disk).online)
    ensures u !in ViewOf(DoLogout(s.disk, u).state.disk).online
  {
    RefreshKeeps(s, Silence);
    LoadIsTrue(s.disk);
    LogoutKeeps(s.disk, u);
    DeleteView(s.disk, Online, ByField(0, u));
    ThenRefreshKeeps(s, Delete(s.disk, Online, ByField(0, u)), Silence, []);
  }

  /** Every safe command keeps the disk invariant and the truth of the cached accounts and owners. */
  lemma StepKeeps(h: PasswordHash, s: State, c: Command)
    requires DiskInv(s.disk) && CacheOk(s.cache, ViewOf(s.disk)) && Safe(s, c)
    ensures Kept(s, Step(h, s, c))
  {
    RefreshKeeps(s, Silence);
    match c
    case Login(u, pw, port, ip) => LoginStep(h, s, u, pw, port, ip);
    case CreateUser(u, pw, port, ip, salt) => CreateUserStep(h, s, u, pw, port, ip, salt);
    case CreateGroup(g, u) => CreateGroupStep(s, g, u);
    case JoinGroup(g, u) => JoinStep(s, g, u);
    case AcceptRequest(g, u, owner) => AcceptStep(s, g, u, owner);
    case Upload(hash, size, g, u, name, path) => UploadStep(s, hash, size, g, u, name, path);
    case StopShare(g, name, u) => StopShareStep(s, g, name, u);
    case LeaveGroup(g, u) => LeaveStep(s, g, u);
    case GiveSha(g, name, u) => GiveShaStep(s, g, name, u);
    case AddFile(g, name, path, u) => AddFileStep(s, g, name, path, u);
    case Complete(g, name, u) => CompleteStep(s, g, name, u);
    case Logout(u) => LogoutStep(s, u);
    case _ =>
  }

  /** A command keeps the disk in order if and only if it is safe. */
  lemma StepKeepsExactly(h: PasswordHash, s: State, c: Command)
    requires DiskInv(s.disk) && CacheOk(s.cache, ViewOf(s.disk))
    ensures DiskInv(Step(h, s, c).state.disk) <==> Safe(s, c)
  {
    match c
    case CreateGroup(g, u) => CreateGroupExactly(s, g, u);
    case Upload(hash, size, g, u, name, path) => UploadExactly(s, hash, size, g, u, name, path);
    case AddFile(g, name, path, u) => AddFileExactly(s, g, name, path, u);
    case _ => StepKeeps(h, s, c);
  }
}
