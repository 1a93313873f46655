/** Every command at every reachable tracker: what it answers, what it does, and what the caches say afterwards. */
module AllAnswers {
  import opened Store
  import opened Handlers
  import opened View
  import opened Invariants
  import opened Commands
  import opened Replication
  import opened Guarantees
  import opened Accounts
  import opened Answers
  import opened FileAnswers

  /******* Caches *******/

  /** The caches say what the disk says, apart from addresses. */
  ghost predicate Fresh(s: State) {
    var v := ViewOf(s.disk);
    && s.cache.credentials == Secrets(s.disk)
    && s.cache.online == v.online && s.cache.groups == v.owners && s.cache.pending == v.pending
  }

  lemma LoadedIsFresh(d: Disk)
    requires BASE <= d.Keys
    ensures Fresh(Refresh(d)) && Fresh(State(d, Load(d)))
  {
    LoadIsTrue(d);
    WithBaseSame(d);
  }

  /** Changing a file of a group or a user changes none of the base files. */
  lemma OtherFilesStayFresh(d: Disk, d': Disk, c: Cache)
    requires Fresh(State(d, c)) && forall p :: p in BASE ==> Read(d', p) == Read(d, p)
    ensures Fresh(State(d', c))
  {
  }

  lemma LoginFresh(h: PasswordHash, d: Disk, u: string, pw: string, port: string, ip: string)
    requires BASE <= d.Keys
    ensures Fresh(DoLogin(h, d, u, pw, port, ip).state)
  {
    LoadedIsFresh(d);
    WithBaseSame(d);
    AppendView(d, Online, [u, ip, port]);
  }

  lemma SignUpFresh(h: PasswordHash, d: Disk, u: string, pw: string, port: string, ip: string, salt: string)
    requires BASE <= d.Keys
    ensures Fresh(DoCreateUser(h, d, u, pw, port, ip, salt).state)
  {
    WithBaseSame(d);
    LoadedIsFresh(d);
    LoadedIsFresh(NewUser(h, d, u, pw, port, ip, salt));
  }

  lemma FoundFresh(d: Disk, g: string, u: string)
    requires BASE <= d.Keys
    ensures Fresh(DoCreateGroup(d, g, u).state)
  {
    WithBaseSame(d);
    LoadedIsFresh(d);
    LoadedIsFresh(NewGroup(d, g, u));
  }

  lemma LogoutFresh(d: Disk, u: string)
    requires BASE <= d.Keys
    ensures Fresh(DoLogout(d, u).state)
  {
    WithBaseSame(d);
    LoadedIsFresh(d);
    LoadedIsFresh(Delete(d, Online, ByField(0, u)));
  }

  lemma ShaFresh(d: Disk, g: string, f: string, u: string)
    requires BASE <= d.Keys
    ensures Fresh(DoGiveSha(d, g, f, u).state)
  {
    WithBaseSame(d);
    LoadedIsFresh(d);
    OtherFilesStayFresh(d, Append(d, Downloading(u), [g, f]), Load(d));
  }

  lemma AddFresh(d: Disk, g: string, f: string, path: string, u: string)
    requires BASE <= d.Keys
    ensures Fresh(DoAddFile(d, g, f, path, u).state)
  {
    var first := FindFirst(Read(d, GroupFiles(g)), ByField(3, f));
    WithBaseSame(d);
    LoadedIsFresh(d);
    OtherFilesStayFresh(d, Share(d, Field(first, 0), Field(first, 1), g, u, f, path), Load(d));
  }

  lemma CompleteFresh(d: Disk, g: string, f: string, u: string)
    requires BASE <= d.Keys
    ensures Fresh(DoComplete(d, g, f, u).state)
  {
    WithBaseSame(d);
    LoadedIsFresh(d);
    OtherFilesStayFresh(d, Finish(d, g, f, u), Load(d));
  }

  lemma LeaveFresh(s: State, g: string, u: string)
    requires BASE <= s.disk.Keys && MayLeave(s, g, u)
    ensures Fresh(DoLeave(s, g, u).state)
  {
    MembersAt(s.disk, g);
    LoadedIsFresh(Depart(s.disk, g, u));
  }

  lemma DetailsFresh(d: Disk, u: string)
    requires BASE <= d.Keys
    ensures Fresh(DoGiveDetails(d, u).state)
  {
    LoadedIsFresh(d);
    WithBaseSame(d);
  }

  /** Afterwards the caches are fresh, or they are what they were but for a request just written. */
  ghost predicate CachesRight(s: State, c: Command, o: Outcome) {
    match c
    case JoinGroup(_, _) => true
    case AcceptRequest(_, _, _) => o.state.cache == s.cache
    case Upload(_, _, _, _, _, _) => o.state.cache == s.cache
    case StopShare(_, _, _) => o.state.cache == s.cache
    case LeaveGroup(g, u) => if MayLeave(s, g, u) then Fresh(o.state) else o.state == s
    case SendFullPath(_, _, _) => o.state == s
    case _ => Fresh(o.state)
  }

  /******* Lists *******/

  ghost predicate GroupsListed(d: Disk, o: Outcome) {
    Unchanged(d, o) && o.reply.Names? && forall g :: g in o.reply.names <==> MembersOf(d, g) != {}
  }

  ghost predicate FilesListed(d: Disk, g: string, o: Outcome) {
    Unchanged(d, o) && o.reply.Names? && forall f :: f in o.reply.names <==> Offered(d, g, f)
  }

  ghost predicate RequestsListed(d: Disk, g: string, who: string, o: Outcome) {
    && Unchanged(d, o) && o.reply.Names?
    && forall u :: u in o.reply.names <==> HasRequest(d, g, u) && g in ViewOf(d).owners && ViewOf(d).owners[g] == who
  }

  ghost predicate DownloadsListed(d: Disk, u: string, o: Outcome) {
    Unchanged(d, o) && o.reply == Ledger(Read(d, Downloading(u)), Read(d, Downloaded(u)))
  }

  /******* All commands *******/

  /** What a command must answer and do, told in terms of accounts, groups, members, shares and later answers. */
  ghost predicate Right(h: PasswordHash, s: State, c: Command, o: Outcome) {
    var d := s.disk;
    match c
    case Login(u, pw, port, ip) => LoginRight(h, d, u, pw, port, ip, o)
    case CreateUser(u, pw, port, ip, salt) => SignUpRight(h, d, u, pw, port, ip, salt, o)
    case CreateGroup(g, u) => FoundRight(d, g, u, o)
    case ListGroups => GroupsListed(d, o)
    case ListRequests(g, u) => RequestsListed(d, g, u, o)
    case ListFiles(g) => FilesListed(d, g, o)
    case JoinGroup(g, u) => JoinRight(s, g, u, o)
    case AcceptRequest(g, u, owner) => AcceptRight(s, g, u, owner, o)
    case Upload(hash, size, g, u, name, path) =>
      exists listed :: UploadRight(s, hash, size, g, u, name, path, listed, o)
    case StopShare(g, name, u) => StopRight(s, g, name, u, o)
    case LeaveGroup(g, u) => LeaveRight(s, g, u, o)
    case GiveSha(g, name, u) => ShaRight(d, g, name, u, o)
    case GiveSeeders(g, name) => SeedersRight(d, g, name, o)
    case GiveDetails(u) => DetailsRight(d, u, o)
    case SendFullPath(u, g, name) => PathRight(s, u, g, name, o)
    case AddFile(g, name, path, u) => exists hash, size :: AddRight(d, g, name, path, u, hash, size, o)
    case Complete(g, name, u) => CompleteRight(d, g, name, u, o)
    case ShowDownloads(u) => DownloadsListed(d, u, o)
    case Logout(u) => LogoutRight(d, u, o)
  }

  ghost predicate InOrder(s: State) {
    DiskInv(s.disk) && CacheOk(s.cache, ViewOf(s.disk))
  }

  ghost predicate AllRight(h: PasswordHash, s: State, c: Command, o: Outcome) {
    Right(h, s, c, o) && CachesRight(s, c, o)
  }

  lemma AccountsRight(h: PasswordHash, s: State, c: Command, o: Outcome)
    requires InOrder(s) && o == Step(h, s, c) && (c.Login? || c.CreateUser? || c.Logout?)
    ensures AllRight(h, s, c, o)
  {
    match c
    case Login(u, pw, port, ip) =>
      LoginIsRight(h, s.disk, u, pw, port, ip);
      LoginFresh(h, s.disk, u, pw, port, ip);
    case CreateUser(u, pw, port, ip, salt) =>
      SignUpIsRight(h, s.disk, u, pw, port, ip, salt, o);
      SignUpFresh(h, s.disk, u, pw, port, ip, salt);
    case Logout(u) =>
      LogoutIsRight(s.disk, u, o);
      LogoutFresh(s.disk, u);
  }

  lemma ListsRight(h: PasswordHash, s: State, c: Command, o: Outcome)
    requires InOrder(s) && o == Step(h, s, c)
    requires c.ListGroups? || c.ListRequests? || c.ListFiles? || c.ShowDownloads?
    ensures AllRight(h, s, c, o)
  {
    WithBaseSame(s.disk);
    LoadedIsFresh(s.disk);
    match c
    case ListGroups => GroupNames(h, s);
    case ListRequests(g, u) => RequestNames(s.disk, g, u);
    case ListFiles(g) => FileNames(s.disk, g);
    case ShowDownloads(u) => LedgersAre(s.disk, u);
  }

  lemma GroupsRight(h: PasswordHash, s: State, c: Command, o: Outcome)
    requires InOrder(s) && o == Step(h, s, c) && (c.CreateGroup? || c.JoinGroup? || c.AcceptRequest? || c.LeaveGroup?)
    ensures AllRight(h, s, c, o)
  {
    match c
    case CreateGroup(g, u) =>
      FoundIsRight(s.disk, g, u, o);
      FoundFresh(s.disk, g, u);
    case JoinGroup(g, u) => JoinIsRight(s, g, u, o);
    case AcceptRequest(g, u, owner) => AcceptIsRight(s, g, u, owner, o);
    case LeaveGroup(g, u) => LeavingRight(s, g, u, o);
  }

  lemma LeavingRight(s: State, g: string, u: string, o: Outcome)
    requires InOrder(s) && o == DoLeave(s, g, u)
    ensures LeaveRight(s, g, u, o) && if MayLeave(s, g, u) then Fresh(o.state) else o.state == s
  {
    LeaveIsRight(s, g, u, o);
    MembersAt(s.disk, g);
    if MayLeave(s, g, u) {
      LeaveFresh(s, g, u);
    }
  }

  lemma SharesRight(h: PasswordHash, s: State, c: Command, o: Outcome)
    requires InOrder(s) && o == Step(h, s, c) && (c.Upload? || c.StopShare? || c.AddFile?)
    ensures AllRight(h, s, c, o)
  {
    match c
    case Upload(hash, size, g, u, name, path) => var listed := UploadIsRight(s, hash, size, g, u, name, path, o);
    case StopShare(g, name, u) => StopIsRight(s, g, name, u, o);
    case AddFile(g, name, path, u) =>
      var hash, size := AddIsRight(s.disk, g, name, path, u, o);
      AddFresh(s.disk, g, name, path, u);
  }

  lemma SeekersRight(h: PasswordHash, s: State, c: Command, o: Outcome)
    requires InOrder(s) && c.GiveSeeders? && o == DoGiveSeeders(s.disk, c.group, c.name)
    ensures AllRight(h, s, c, o)
  {
    SeedersAreRight(s.disk, c.group, c.name, o);
    SeekersFresh(s.disk, c.group, c.name);
  }

  lemma SeekersFresh(d: Disk, g: string, f: string)
    requires BASE <= d.Keys
    ensures Fresh(DoGiveSeeders(d, g, f).state)
  {
    LoadedIsFresh(d);
    WithBaseSame(d);
  }

  lemma AddressesRight(h: PasswordHash, s: State, c: Command, o: Outcome)
    requires InOrder(s) && c.GiveDetails? && o == DoGiveDetails(s.disk, c.user)
    ensures AllRight(h, s, c, o)
  {
    DetailsIsRight(s.disk, c.user, o);
    DetailsFresh(s.disk, c.user);
  }

  lemma PathsRight(h: PasswordHash, s: State, c: Command, o: Outcome)
    requires InOrder(s) && c.SendFullPath? && o == DoSendFullPath(s, c.user, c.group, c.name)
    ensures AllRight(h, s, c, o)
  {
    PathIsRight(s, c.user, c.group, c.name, o);
  }

  lemma DownloadsRight(h: PasswordHash, s: State, c: Command, o: Outcome)
    requires InOrder(s) && o == Step(h, s, c) && (c.GiveSha? || c.Complete?)
    ensures AllRight(h, s, c, o)
  {
    match c
    case GiveSha(g, name, u) =>
      ShaIsRight(s.disk, g, name, u, o);
      ShaFresh(s.disk, g, name, u);
    case Complete(g, name, u) =>
      CompleteIsRight(s.disk, g, name, u, o);
      CompleteFresh(s.disk, g, name, u);
  }

  lemma OutcomeRight(h: PasswordHash, s: State, c: Command, o: Outcome)
    requires InOrder(s) && o == Step(h, s, c)
    ensures AllRight(h, s, c, o)
  {
    if c.Login? || c.CreateUser? || c.Logout? {
      AccountsRight(h, s, c, o);
    } else if c.ListGroups? || c.ListRequests? || c.ListFiles? || c.ShowDownloads? {
      ListsRight(h, s, c, o);
    } else if c.CreateGroup? || c.JoinGroup? || c.AcceptRequest? || c.LeaveGroup? {
      GroupsRight(h, s, c, o);
    } else if c.Upload? || c.StopShare? || c.AddFile? {
      SharesRight(h, s, c, o);
    } else if c.GiveSha? || c.Complete? {
      DownloadsRight(h, s, c, o);
    } else if c.GiveSeeders? {
      SeekersRight(h, s, c, o);
    } else if c.GiveDetails? {
      AddressesRight(h, s, c, o);
    } else {
      PathsRight(h, s, c, o);
    }
  }

  /** Every command at a tracker that is up, after any guarded run of the pair, answers and does what it must. */
  lemma EveryAnswerIsRight(h: PasswordHash, s: State, c: Command, o: Outcome)
    requires ReachableUp(h, s) && o == Step(h, s, c)
    ensures Right(h, s, c, o) && CachesRight(s, c, o)
  {
    ReachableInv(h, s);
    OutcomeRight(h, s, c, o);
  }
}
