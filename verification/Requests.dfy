/**
  Join requests at one tracker that receives no pushes. The pending cache is refreshed by some handlers only,
  yet in every run, whatever the commands and restarts, it admits nobody without a request on disk and loses no
  request.
 */
module Requests {
  import opened Text
  import opened Store
  import opened Handlers
  import opened View
  import opened Invariants
  import opened Commands
  import opened Names
  import opened Directory
  import opened Scripts

  datatype Status = Stranger | Requested | Member

  function StatusOf(v: View, g: string, u: string): Status {
    if (g, u) in v.members then Member else if (u, g) in v.pending then Requested else Stranger
  }

  /** Members and requests are for existing groups, and no member has a request. */
  ghost predicate PeopleOk(v: View) {
    PendingOk(v) && forall t :: t in v.members ==> t.0 in v.owners
  }

  /** Pending file within pending cache within pending file plus members. */
  ghost predicate CacheCovers(c: Cache, v: View) {
    && c.groups.Keys <= v.owners.Keys
    && v.pending <= c.pending
    && forall t :: t in c.pending ==> t in v.pending || (t.1, t.0) in v.members
  }

  ghost predicate Inv(s: State) {
    BASE <= s.disk.Keys && ArityOk(s.disk) && PeopleOk(ViewOf(s.disk)) && CacheCovers(s.cache, ViewOf(s.disk))
  }

  /** The only ways a user's standing in a group changes. */
  ghost predicate Moves(before: Status, after: Status, c: Command, g: string, u: string) {
    || before == after
    || (before == Stranger && after == Requested && c == JoinGroup(g, u))
    || (before == Requested && after == Member && c.AcceptRequest? && c.group == g && c.user == u)
    || (before == Member && after == Stranger && c == LeaveGroup(g, u))
    || (before == Stranger && after == Member && c == CreateGroup(g, u))
  }

  /** The part of the view that requests are about. */
  ghost predicate SamePeople(v: View, w: View) {
    w.owners == v.owners && w.members == v.members && w.pending == v.pending
  }

  ghost predicate AllMove(v: View, w: View, c: Command) {
    forall g, u :: Moves(StatusOf(v, g, u), StatusOf(w, g, u), c, g, u)
  }

  ghost predicate Good(s: State, c: Command, o: Outcome) {
    Inv(o.state) && AllMove(ViewOf(s.disk), ViewOf(o.state.disk), c)
  }

  /******* Building blocks *******/

  /** A command that leaves owners, members and requests alone, and the pending cache true. */
  lemma QuietStep(s: State, c: Command, o: Outcome)
    requires Inv(s) && BASE <= o.state.disk.Keys && ArityOk(o.state.disk)
    requires SamePeople(ViewOf(s.disk), ViewOf(o.state.disk))
    requires o.state.cache.groups.Keys <= ViewOf(s.disk).owners.Keys
    requires o.state.cache.pending == s.cache.pending || o.state.cache.pending == ViewOf(s.disk).pending
    ensures Good(s, c, o)
  {
  }

  lemma LoadCovers(d: Disk)
    ensures CacheCovers(Load(d), ViewOf(d))
  {
  }

  lemma RefreshStep(s: State, c: Command, reply: Reply)
    requires Inv(s)
    ensures Good(s, c, Outcome(Refresh(s.disk), reply, [])) && Refresh(s.disk).disk == s.disk
  {
    WithBaseSame(s.disk);
    LoadIsTrue(s.disk);
    QuietStep(s, c, Outcome(Refresh(s.disk), reply, []));
  }

  /** Changing one file other than the groups, a member list or the requests. */
  lemma OtherFile(d: Disk, p: Path, f: File)
    requires ArityOk(d) && forall r :: r in f ==> |r| == Arity(p)
    requires !p.Groups? && !p.Members? && !p.Pending?
    ensures ArityOk(d[p := f]) && SamePeople(ViewOf(d), ViewOf(d[p := f]))
  {
  }

  lemma OtherAppend(d: Disk, p: Path, r: Record)
    requires ArityOk(d) && |r| == Arity(p) && !p.Groups? && !p.Members? && !p.Pending?
    ensures ArityOk(Append(d, p, r)) && SamePeople(ViewOf(d), ViewOf(Append(d, p, r)))
  {
    OtherFile(d, p, Read(d, p) + [r]);
  }

  lemma OtherDelete(d: Disk, p: Path, m: Match)
    requires ArityOk(d) && !p.Groups? && !p.Members? && !p.Pending?
    ensures ArityOk(Delete(d, p, m)) && SamePeople(ViewOf(d), ViewOf(Delete(d, p, m)))
  {
  }

  /******* Commands that leave requests alone *******/

  lemma LoginQuiet(h: PasswordHash, s: State, u: string, pw: string, port: string, ip: string)
    requires Inv(s)
    ensures Good(s, Login(u, pw, port, ip), DoLogin(h, s.disk, u, pw, port, ip))
  {
    var c, o := Login(u, pw, port, ip), DoLogin(h, s.disk, u, pw, port, ip);
    RefreshStep(s, c, o.reply);
    if o.pushed != [] {
      OtherAppend(s.disk, Online, [u, ip, port]);
      LoadIsTrue(s.disk);
      QuietStep(s, c, o);
    }
  }

  lemma NewUserQuiet(h: PasswordHash, d: Disk, u: string, pw: string, port: string, ip: string, salt: string)
    requires ArityOk(d)
    ensures var d' := NewUser(h, d, u, pw, port, ip, salt); ArityOk(d') && SamePeople(ViewOf(d), ViewOf(d'))
  {
    var line, secret := [u, ip, port], [u, salt + ":" + h(salt, pw)];
    OtherAppend(d, Online, line);
    var d1 := Append(d, Online, line);
    OtherAppend(d1, Credentials, secret);
    var d2 := Append(d1, Credentials, secret);
    OtherFile(d2, UserFiles(u), []);
    OtherFile(d2[UserFiles(u) := []], Downloading(u), []);
    OtherFile(d2[UserFiles(u) := []][Downloading(u) := []], Downloaded(u), []);
  }

  lemma CreateUserQuiet(h: PasswordHash, s: State, u: string, pw: string, port: string, ip: string, salt: string)
    requires Inv(s)
    ensures Good(s, CreateUser(u, pw, port, ip, salt), DoCreateUser(h, s.disk, u, pw, port, ip, salt))
  {
    var c, o := CreateUser(u, pw, port, ip, salt), DoCreateUser(h, s.disk, u, pw, port, ip, salt);
    RefreshStep(s, c, o.reply);
    if o.pushed != [] {
      var d' := NewUser(h, s.disk, u, pw, port, ip, salt);
      NewUserQuiet(h, s.disk, u, pw, port, ip, salt);
      WithBaseSame(d');
      LoadIsTrue(d');
      QuietStep(s, c, o);
    }
  }

  lemma ShareQuiet(d: Disk, hash: string, size: string, g: string, u: string, name: string, path: string)
    requires ArityOk(d)
    ensures var d' := Share(d, hash, size, g, u, name, path); ArityOk(d') && SamePeople(ViewOf(d), ViewOf(d'))
  {
    OtherAppend(d, GroupFiles(g), [hash, size, u, name]);
    OtherAppend(Append(d, GroupFiles(g), [hash, size, u, name]), UserFiles(u), [g, name, path]);
  }

  lemma UploadQuiet(s: State, hash: string, size: string, g: string, u: string, name: string, path: string)
    requires Inv(s)
    ensures Good(s, Upload(hash, size, g, u, name, path), DoUpload(s, hash, size, g, u, name, path))
  {
    var o := DoUpload(s, hash, size, g, u, name, path);
    var c, listed := Upload(hash, size, g, u, name, path), ListedName(Read(s.disk, GroupFiles(g)), hash, name);
    if o.pushed == [] {
      QuietStep(s, c, o);
    } else {
      ShareQuiet(s.disk, hash, size, g, u, listed, path);
      var d' := Share(s.disk, hash, size, g, u, listed, path);
      QuietStep(s, c, Outcome(State(d', s.cache), o.reply, o.pushed));
    }
  }

  lemma StopShareQuiet(s: State, g: string, name: string, u: string)
    requires Inv(s)
    ensures Good(s, StopShare(g, name, u), DoStopShare(s, g, name, u))
  {
    OtherDelete(s.disk, GroupFiles(g), ByFields(3, name, 2, u));
    OtherDelete(Delete(s.disk, GroupFiles(g), ByFields(3, name, 2, u)), UserFiles(u), ByFields(0, g, 1, name));
    QuietStep(s, StopShare(g, name, u), DoStopShare(s, g, name, u));
  }

  lemma GiveShaQuiet(s: State, g: string, name: string, u: string)
    requires Inv(s)
    ensures Good(s, GiveSha(g, name, u), DoGiveSha(s.disk, g, name, u))
  {
    var o := DoGiveSha(s.disk, g, name, u);
    RefreshStep(s, GiveSha(g, name, u), o.reply);
    OtherAppend(s.disk, Downloading(u), [g, name]);
    LoadIsTrue(s.disk);
    QuietStep(s, GiveSha(g, name, u), o);
  }

  lemma AddFileQuiet(s: State, g: string, name: string, path: string, u: string)
    requires Inv(s)
    ensures Good(s, AddFile(g, name, path, u), DoAddFile(s.disk, g, name, path, u))
  {
    var c, o := AddFile(g, name, path, u), DoAddFile(s.disk, g, name, path, u);
    RefreshStep(s, c, o.reply);
    var first := FindFirst(Read(s.disk, GroupFiles(g)), ByField(3, name));
    ShareQuiet(s.disk, Field(first, 0), Field(first, 1), g, u, name, path);
    LoadIsTrue(s.disk);
    QuietStep(s, c, o);
  }

  lemma CompleteQuiet(s: State, g: string, name: string, u: string)
    requires Inv(s)
    ensures Good(s, Complete(g, name, u), DoComplete(s.disk, g, name, u))
  {
    var o := DoComplete(s.disk, g, name, u);
    RefreshStep(s, Complete(g, name, u), o.reply);
    OtherDelete(s.disk, Downloading(u), Whole([g, name]));
    OtherAppend(Delete(s.disk, Downloading(u), Whole([g, name])), Downloaded(u), [g, name]);
    LoadIsTrue(s.disk);
    QuietStep(s, Complete(g, name, u), o);
  }

  lemma LogoutQuiet(s: State, u: string)
    requires Inv(s)
    ensures Good(s, Logout(u), DoLogout(s.disk, u))
  {
    var o := DoLogout(s.disk, u);
    RefreshStep(s, Logout(u), o.reply);
    if o.pushed != [] {
      var d' := Delete(s.disk, Online, ByField(0, u));
      OtherDelete(s.disk, Online, ByField(0, u));
      WithBaseSame(d');
      LoadIsTrue(d');
      QuietStep(s, Logout(u), o);
    }
  }

  lemma GiveDetailsQuiet(s: State, u: string)
    requires Inv(s)
    ensures Good(s, GiveDetails(u), DoGiveDetails(s.disk, u))
  {
    RefreshStep(s, GiveDetails(u), Silence);
    LoadIsTrue(s.disk);
    QuietStep(s, GiveDetails(u), DoGiveDetails(s.disk, u));
  }

  /******* Commands about groups and requests *******/

  lemma NewGroupPeople(d: Disk, g: string, u: string)
    requires ArityOk(d) && PeopleOk(ViewOf(d)) && g !in ViewOf(d).owners
    ensures var v, w := ViewOf(d), ViewOf(NewGroup(d, g, u));
            w.owners == v.owners[g := u] && w.members == v.members + {(g, u)} && w.pending == v.pending
    ensures ArityOk(NewGroup(d, g, u))
  {
    var d1 := Append(d, Groups, [g, u]);
    ArityAppend(d, Groups, [g, u]);
    AppendView(d, Groups, [g, u]);
    ArityUpdate(d1, Members(g), [[u]]);
    FirstMemberView(d1, g, u);
    OtherFile(d1[Members(g) := [[u]]], GroupFiles(g), []);
  }

  lemma NewGroupMoves(v: View, w: View, g: string, u: string)
    requires PeopleOk(v) && g !in v.owners
    requires w.owners == v.owners[g := u] && w.members == v.members + {(g, u)} && w.pending == v.pending
    ensures PeopleOk(w) && AllMove(v, w, CreateGroup(g, u))
  {
  }

  lemma CreateGroupGood(s: State, g: string, u: string)
    requires Inv(s)
    ensures Good(s, CreateGroup(g, u), DoCreateGroup(s.disk, g, u))
  {
    var o := DoCreateGroup(s.disk, g, u);
    RefreshStep(s, CreateGroup(g, u), o.reply);
    LoadIsTrue(s.disk);
    if o.pushed != [] {
      var d' := NewGroup(s.disk, g, u);
      NewGroupPeople(s.disk, g, u);
      NewGroupMoves(ViewOf(s.disk), ViewOf(d'), g, u);
      WithBaseSame(d');
      LoadCovers(d');
    }
  }

  lemma JoinMoves(v: View, c: Cache, c': Cache, g: string, u: string)
    requires PeopleOk(v) && CacheCovers(c, v) && g in v.owners && (g, u) !in v.members
    requires c'.groups == c.groups && c'.pending == c.pending + {(u, g)}
    ensures var w := v.(pending := v.pending + {(u, g)});
            && PeopleOk(w) && CacheCovers(c', w) && AllMove(v, w, JoinGroup(g, u))
            && StatusOf(w, g, u) == Requested
  {
  }

  lemma RequestView(d: Disk, g: string, u: string)
    ensures ViewOf(Append(d, Pending, [u, g])) == ViewOf(d).(pending := ViewOf(d).pending + {(u, g)})
  {
    AppendView(d, Pending, [u, g]);
  }

  /** Writing a request to the file and to the cache. */
  lemma RequestGood(s: State, c': Cache, g: string, u: string, o: Outcome)
    requires Inv(s) && g in ViewOf(s.disk).owners && (g, u) !in ViewOf(s.disk).members
    requires c'.groups == s.cache.groups && c'.pending == s.cache.pending + {(u, g)}
    requires o.state == State(Append(s.disk, Pending, [u, g]), c')
    ensures Good(s, JoinGroup(g, u), o) && StatusOf(ViewOf(o.state.disk), g, u) == Requested
  {
    ArityAppend(s.disk, Pending, [u, g]);
    RequestView(s.disk, g, u);
    JoinMoves(ViewOf(s.disk), s.cache, c', g, u);
  }

  lemma JoinGood(s: State, g: string, u: string)
    requires Inv(s)
    ensures Good(s, JoinGroup(g, u), DoJoin(s, g, u))
    ensures DoJoin(s, g, u).reply == Verdict(true) ==>
            StatusOf(ViewOf(DoJoin(s, g, u).state.disk), g, u) != Stranger
  {
    var o, c := DoJoin(s, g, u), s.cache;
    MembersAt(s.disk, g);
    if g !in c.groups || u in MembersOf(s.disk, g) || (c.groups[g] !in c.online && (u, g) in c.pending) {
      QuietStep(s, JoinGroup(g, u), o);
    } else {
      RequestGood(s, o.state.cache, g, u, o);
    }
  }

  lemma AdmitMoves(v: View, c: Cache, g: string, u: string, owner: string)
    requires PeopleOk(v) && CacheCovers(c, v) && g in v.owners && (u, g) in c.pending && (g, u) !in v.members
    ensures var w := v.(members := v.members + {(g, u)}, pending := v.pending - {(u, g)});
            PeopleOk(w) && CacheCovers(c, w) && AllMove(v, w, AcceptRequest(g, u, owner))
  {
  }

  lemma AdmitGood(s: State, g: string, u: string, owner: string, o: Outcome)
    requires Inv(s) && g in ViewOf(s.disk).owners && (u, g) in s.cache.pending && (g, u) !in ViewOf(s.disk).members
    requires o.state == State(Admit(s.disk, g, u), s.cache)
    ensures Good(s, AcceptRequest(g, u, owner), o)
  {
    var v := ViewOf(s.disk);
    AdmitMoves(v, s.cache, g, u, owner);
    AdmitArity(s.disk, g, u);
    assert ViewOf(o.state.disk) == v.(members := v.members + {(g, u)}, pending := v.pending - {(u, g)}) by {
      AdmitView(s.disk, g, u);
    }
  }

  lemma AdmitArity(d: Disk, g: string, u: string)
    requires ArityOk(d)
    ensures ArityOk(Admit(d, g, u))
  {
  }

  lemma AcceptGood(s: State, g: string, u: string, owner: string)
    requires Inv(s)
    ensures Good(s, AcceptRequest(g, u, owner), DoAccept(s, g, u, owner))
  {
    var o := DoAccept(s, g, u, owner);
    MembersAt(s.disk, g);
    if o.pushed == [] {
      QuietStep(s, AcceptRequest(g, u, owner), o);
    } else {
      AdmitGood(s, g, u, owner, o);
    }
  }

  lemma DepartArity(d: Disk, g: string, u: string)
    requires ArityOk(d)
    ensures ArityOk(Depart(d, g, u))
  {
    var d1 := Delete(d, Members(g), ByField(0, u));
    ArityDelete(d, Members(g), ByField(0, u));
    ArityDelete(d1, GroupFiles(g), ByField(2, u));
    ArityDelete(Delete(d1, GroupFiles(g), ByField(2, u)), UserFiles(u), ByField(0, g));
  }

  lemma DepartMoves(v: View, w: View, g: string, u: string)
    requires PeopleOk(v) && (g, u) in v.members
    requires w.owners == v.owners && w.members == v.members - {(g, u)} && w.pending == v.pending
    ensures PeopleOk(w) && AllMove(v, w, LeaveGroup(g, u))
  {
  }

  lemma LeaveGood(s: State, g: string, u: string)
    requires Inv(s)
    ensures Good(s, LeaveGroup(g, u), DoLeave(s, g, u))
  {
    var o := DoLeave(s, g, u);
    MembersAt(s.disk, g);
    if o.pushed == [] {
      QuietStep(s, LeaveGroup(g, u), o);
    } else {
      var d' := Depart(s.disk, g, u);
      DepartView(s.disk, g, u);
      DepartMoves(ViewOf(s.disk), ViewOf(d'), g, u);
      DepartArity(s.disk, g, u);
      WithBaseSame(d');
      LoadCovers(d');
    }
  }

  lemma LoginGood(h: PasswordHash, s: State, c: Command, o: Outcome)
    requires Inv(s) && c.Login? && o == Step(h, s, c)
    ensures Good(s, c, o)
  {
    LoginQuiet(h, s, c.user, c.password, c.port, c.ip);
  }

  lemma CreateUserGood(h: PasswordHash, s: State, c: Command, o: Outcome)
    requires Inv(s) && c.CreateUser? && o == Step(h, s, c)
    ensures Good(s, c, o)
  {
    CreateUserQuiet(h, s, c.user, c.password, c.port, c.ip, c.salt);
  }

  lemma LogoutGood(h: PasswordHash, s: State, c: Command, o: Outcome)
    requires Inv(s) && c.Logout? && o == Step(h, s, c)
    ensures Good(s, c, o)
  {
    LogoutQuiet(s, c.user);
  }

  lemma UploadGood(h: PasswordHash, s: State, c: Command, o: Outcome)
    requires Inv(s) && c.Upload? && o == Step(h, s, c)
    ensures Good(s, c, o)
  {
    UploadQuiet(s, c.hash, c.size, c.group, c.user, c.name, c.path);
  }

  lemma StopShareGood(h: PasswordHash, s: State, c: Command, o: Outcome)
    requires Inv(s) && c.StopShare? && o == Step(h, s, c)
    ensures Good(s, c, o)
  {
    StopShareQuiet(s, c.group, c.name, c.user);
  }

  lemma GiveShaGood(h: PasswordHash, s: State, c: Command, o: Outcome)
    requires Inv(s) && c.GiveSha? && o == Step(h, s, c)
    ensures Good(s, c, o)
  {
    GiveShaQuiet(s, c.group, c.name, c.user);
  }

  lemma AddFileGood(h: PasswordHash, s: State, c: Command, o: Outcome)
    requires Inv(s) && c.AddFile? && o == Step(h, s, c)
    ensures Good(s, c, o)
  {
    AddFileQuiet(s, c.group, c.name, c.path, c.user);
  }

  lemma CompleteGood(h: PasswordHash, s: State, c: Command, o: Outcome)
    requires Inv(s) && c.Complete? && o == Step(h, s, c)
    ensures Good(s, c, o)
  {
    CompleteQuiet(s, c.group, c.name, c.user);
  }

  lemma GiveDetailsGood(h: PasswordHash, s: State, c: Command, o: Outcome)
    requires Inv(s) && c.GiveDetails? && o == Step(h, s, c)
    ensures Good(s, c, o)
  {
    GiveDetailsQuiet(s, c.user);
  }

  lemma FoundGood(h: PasswordHash, s: State, c: Command, o: Outcome)
    requires Inv(s) && c.CreateGroup? && o == Step(h, s, c)
    ensures Good(s, c, o)
  {
    CreateGroupGood(s, c.group, c.user);
  }

  lemma AskGood(h: PasswordHash, s: State, c: Command, o: Outcome)
    requires Inv(s) && c.JoinGroup? && o == Step(h, s, c)
    ensures Good(s, c, o)
  {
    JoinGood(s, c.group, c.user);
  }

  lemma AdmissionGood(h: PasswordHash, s: State, c: Command, o: Outcome)
    requires Inv(s) && c.AcceptRequest? && o == Step(h, s, c)
    ensures Good(s, c, o)
  {
    AcceptGood(s, c.group, c.user, c.owner);
  }

  lemma DepartureGood(h: PasswordHash, s: State, c: Command, o: Outcome)
    requires Inv(s) && c.LeaveGroup? && o == Step(h, s, c)
    ensures Good(s, c, o)
  {
    LeaveGood(s, c.group, c.user);
  }

  /** Commands that only refresh, or change nothing at all. */
  lemma ReadsGood(h: PasswordHash, s: State, c: Command, o: Outcome)
    requires Inv(s) && o == Step(h, s, c)
    requires c.ListGroups? || c.ListRequests? || c.ListFiles? || c.GiveSeeders? || c.ShowDownloads? || c.SendFullPath?
    ensures Good(s, c, o)
  {
    if c.SendFullPath? {
      QuietStep(s, c, o);
    } else {
      RefreshStep(s, c, o.reply);
    }
  }

  lemma OutcomeGood(h: PasswordHash, s: State, c: Command, o: Outcome)
    requires Inv(s) && o == Step(h, s, c)
    ensures Good(s, c, o)
  {
    match c
    case Login(_, _, _, _) => LoginGood(h, s, c, o);
    case CreateUser(_, _, _, _, _) => CreateUserGood(h, s, c, o);
    case CreateGroup(_, _) => FoundGood(h, s, c, o);
    case JoinGroup(_, _) => AskGood(h, s, c, o);
    case AcceptRequest(_, _, _) => AdmissionGood(h, s, c, o);
    case Upload(_, _, _, _, _, _) => UploadGood(h, s, c, o);
    case StopShare(_, _, _) => StopShareGood(h, s, c, o);
    case LeaveGroup(_, _) => DepartureGood(h, s, c, o);
    case GiveSha(_, _, _) => GiveShaGood(h, s, c, o);
    case GiveDetails(_) => GiveDetailsGood(h, s, c, o);
    case AddFile(_, _, _, _) => AddFileGood(h, s, c, o);
    case Complete(_, _, _) => CompleteGood(h, s, c, o);
    case Logout(_) => LogoutGood(h, s, c, o);
    case _ => ReadsGood(h, s, c, o);
  }

  lemma StepGood(h: PasswordHash, s: State, c: Command)
    requires Inv(s)
    ensures Good(s, c, Step(h, s, c))
  {
    OutcomeGood(h, s, c, Step(h, s, c));
  }

  /******* Runs *******/

  datatype LoneEvent = Do(cmd: Command) | Reboot

  /** A command, or a restart that loads the caches from the disk left behind. */
  function Happens(h: PasswordHash, s: State, e: LoneEvent): State {
    match e
    case Do(cmd) => Step(h, s, cmd).state
    case Reboot => Refresh(s.disk)
  }

  ghost function RunAll(h: PasswordHash, s: State, events: seq<LoneEvent>): State
    decreases |events|
  {
    if events == [] then s else RunAll(h, Happens(h, s, events[0]), events[1..])
  }

  /** Every command has proper arguments. */
  ghost predicate ProperRun(events: seq<LoneEvent>) {
    forall e :: e in events && e.Do? ==> Proper(e.cmd)
  }

  lemma EventKeepsInv(h: PasswordHash, s: State, e: LoneEvent)
    requires Inv(s)
    ensures Inv(Happens(h, s, e))
  {
    match e
    case Do(cmd) => StepGood(h, s, cmd);
    case Reboot =>
      WithBaseSame(s.disk);
      LoadCovers(s.disk);
  }

  lemma {:induction false} RunsKeepInv(h: PasswordHash, s: State, events: seq<LoneEvent>)
    requires Inv(s)
    ensures Inv(RunAll(h, s, events))
    decreases |events|
  {
    if events != [] {
      EventKeepsInv(h, s, events[0]);
      RunsKeepInv(h, Happens(h, s, events[0]), events[1..]);
    }
  }

  lemma EventKeepsTidy(h: PasswordHash, s: State, e: LoneEvent)
    requires Inv(s) && Tidy(s.disk) && TokenHash(h) && (e.Do? ==> Proper(e.cmd))
    ensures Tidy(Happens(h, s, e).disk)
  {
    match e
    case Do(cmd) => StepOnBytes(h, s, cmd);
    case Reboot => WithBaseSame(s.disk);
  }

  lemma {:induction false} RunsKeepTidy(h: PasswordHash, s: State, events: seq<LoneEvent>)
    requires Inv(s) && Tidy(s.disk) && TokenHash(h) && ProperRun(events)
    ensures Tidy(RunAll(h, s, events).disk)
    decreases |events|
  {
    if events != [] {
      EventKeepsInv(h, s, events[0]);
      EventKeepsTidy(h, s, events[0]);
      RunsKeepTidy(h, Happens(h, s, events[0]), events[1..]);
    }
  }

  lemma FreshInv()
    ensures Inv(Refresh(map[])) && Tidy(Refresh(map[]).disk)
  {
  }

  /**
    In every run of a lone tracker with proper arguments the disk is what its bytes say, the cache covers the
    requests, and members have none.
   */
  lemma {:induction false} RequestsAreCovered(h: PasswordHash, events: seq<LoneEvent>)
    requires TokenHash(h) && ProperRun(events)
    ensures var s := RunAll(h, Refresh(map[]), events);
            && Tidy(s.disk)
            && ViewOf(s.disk).pending <= s.cache.pending
            && (forall t :: t in s.cache.pending ==> t in ViewOf(s.disk).pending || (t.1, t.0) in ViewOf(s.disk).members)
            && (forall t :: t in ViewOf(s.disk).pending ==> (t.1, t.0) !in ViewOf(s.disk).members)
  {
    FreshInv();
    RunsKeepInv(h, Refresh(map[]), events);
    RunsKeepTidy(h, Refresh(map[]), events);
  }

  /** What an event may do to a user's standing: a restart nothing. */
  ghost predicate MovesBy(before: Status, after: Status, e: LoneEvent, g: string, u: string) {
    before == after || (e.Do? && Moves(before, after, e.cmd, g, u))
  }

  /**
    After any such run, the next event moves a user only from stranger to request (by joining), from request to
    member (by acceptance), from member to stranger (by leaving), or makes the creator of a group a member.
   */
  lemma {:induction false} StandingMovesInOrder(h: PasswordHash, events: seq<LoneEvent>, e: LoneEvent, g: string, u: string)
    requires TokenHash(h) && ProperRun(events) && (e.Do? ==> Proper(e.cmd))
    ensures var s := RunAll(h, Refresh(map[]), events);
            var s' := Happens(h, s, e);
            && Tidy(s.disk) && Tidy(s'.disk)
            && MovesBy(StatusOf(ViewOf(s.disk), g, u), StatusOf(ViewOf(s'.disk), g, u), e, g, u)
  {
    var s := RunAll(h, Refresh(map[]), events);
    FreshInv();
    RunsKeepInv(h, Refresh(map[]), events);
    RunsKeepTidy(h, Refresh(map[]), events);
    EventKeepsTidy(h, s, e);
    match e
    case Do(cmd) => StepGood(h, s, cmd);
    case Reboot => WithBaseSame(s.disk);
  }

  /** A join that is answered positively leaves a request on disk, or finds a member. */
  lemma {:induction false} JoinIsNeverLost(h: PasswordHash, events: seq<LoneEvent>, g: string, u: string)
    requires TokenHash(h) && ProperRun(events) && Proper(JoinGroup(g, u))
    ensures var o := DoJoin(RunAll(h, Refresh(map[]), events), g, u);
            && Tidy(o.state.disk)
            && (o.reply == Verdict(true) ==> StatusOf(ViewOf(o.state.disk), g, u) != Stranger)
  {
    var s := RunAll(h, Refresh(map[]), events);
    FreshInv();
    RunsKeepInv(h, Refresh(map[]), events);
    RunsKeepTidy(h, Refresh(map[]), events);
    EventKeepsTidy(h, s, Do(JoinGroup(g, u)));
    JoinGood(s, g, u);
  }
}
