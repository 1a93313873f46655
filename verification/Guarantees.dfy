/** What the invariant means to a peer: answers of a tracker that is up, after any guarded run of the pair. */
module Guarantees {
  import opened Text
  import opened Store
  import opened Handlers
  import opened View
  import opened Invariants
  import opened Commands
  import opened Replication

  /** User `u` appears for file `f` in the list of group `g`. */
  ghost predicate Listed(d: Disk, g: string, u: string, f: string) {
    exists r :: r in Read(d, GroupFiles(g)) && Field(r, 2) == u && Field(r, 3) == f
  }

  /** User `u`'s own list has an entry for file `f` of group `g`. */
  ghost predicate Shares(d: Disk, u: string, g: string, f: string) {
    exists r :: r in Read(d, UserFiles(u)) && Field(r, 0) == g && Field(r, 1) == f
  }

  lemma ListedIsEntry(d: Disk, g: string, u: string, f: string)
    ensures Listed(d, g, u, f) <==> (g, u, f) in ViewOf(d).listed
  {
  }

  lemma SharesIsEntry(d: Disk, u: string, g: string, f: string)
    ensures Shares(d, u, g, f) <==> (g, u, f) in ViewOf(d).shared
  {
  }

  /** The two indexes agree: a user is listed for a file of a group exactly when they share it there. */
  lemma IndexesAgree(h: PasswordHash, s: State, g: string, u: string, f: string)
    requires ReachableUp(h, s)
    ensures Listed(s.disk, g, u, f) <==> Shares(s.disk, u, g, f)
  {
    ReachableInv(h, s);
    ListedIsEntry(s.disk, g, u, f);
    SharesIsEntry(s.disk, u, g, f);
  }

  lemma LinesAreNamed(d: Disk, g: string, i: nat)
    requires i < |Read(d, GroupFiles(g))|
    ensures var r := Read(d, GroupFiles(g))[i];
            (g, Field(r, 0), Field(r, 3)) in ViewOf(d).named
  {
  }

  /** In a group, name and hash determine each other, and a user has one line per file. */
  lemma NameAndHashDetermineEachOther(h: PasswordHash, s: State, g: string, i: nat, j: nat)
    requires ReachableUp(h, s) && i < j < |Read(s.disk, GroupFiles(g))|
    ensures var r, q := Read(s.disk, GroupFiles(g))[i], Read(s.disk, GroupFiles(g))[j];
            && (Field(r, 0) == Field(q, 0) <==> Field(r, 3) == Field(q, 3))
            && !(Field(r, 2) == Field(q, 2) && Field(r, 3) == Field(q, 3))
  {
    ReachableInv(h, s);
    LinesAreNamed(s.disk, g, i);
    LinesAreNamed(s.disk, g, j);
    assert UniqueBy(Read(s.disk, GroupFiles(g)), 2, 3);
  }

  /** Owners are members for ever, members and online users are registered, requests are from outsiders. */
  lemma MembershipSound(h: PasswordHash, s: State, g: string, u: string)
    requires ReachableUp(h, s)
    ensures var v := ViewOf(s.disk);
            && (g in v.owners ==> v.owners[g] in MembersOf(s.disk, g))
            && (u in MembersOf(s.disk, g) ==> g in v.owners && u in v.users)
            && (u in v.online ==> u in v.users)
            && ((u, g) in v.pending ==> g in v.owners && u !in MembersOf(s.disk, g))
  {
    ReachableInv(h, s);
    MembersAt(s.disk, g);
  }

  /******* Ownership *******/

  /** One event loses no account and no owner, from any tracker that was up to any that is up afterwards. */
  lemma EventGrows(h: PasswordHash, n: Cluster, e: Event, i: nat, j: nat)
    requires SystemInv(n) && Enabled(n, e) && Allowed(n, e) && i < 2 && j < 2
    requires n[i].up && Apply(h, n, e)[j].up
    ensures Grows(ViewOf(n[i].state.disk), ViewOf(Apply(h, n, e)[j].state.disk))
  {
    UpDisks(h, n, e, i, j);
    if e.Run? {
      StepKeeps(h, n[e.at].state, e.cmd);
    }
  }

  lemma GrowsTwice(a: View, b: View, c: View)
    requires Grows(a, b) && Grows(b, c)
    ensures Grows(a, c)
  {
  }

  lemma {:induction false} RunsGrow(h: PasswordHash, n: Cluster, events: seq<Event>, i: nat, j: nat)
    requires SystemInv(n) && ValidRun(h, n, events) && Guarded(h, n, events) && i < 2 && j < 2
    requires n[i].up && Final(h, n, events)[j].up
    ensures Grows(ViewOf(n[i].state.disk), ViewOf(Final(h, n, events)[j].state.disk))
    decreases |events|
  {
    if events == [] {
      SameDisks(n, i, j);
    } else {
      var next, rest := Apply(h, n, events[0]), events[1..];
      EventSystem(h, n, events[0]);
      var k: nat := if next[0].up then 0 else 1;
      var first, mid, last := n[i].state.disk, next[k].state.disk, Final(h, next, rest)[j].state.disk;
      EventGrows(h, n, events[0], i, k);
      RunsGrow(h, next, rest, k, j);
      GrowsTwice(ViewOf(first), ViewOf(mid), ViewOf(last));
    }
  }

  lemma OwnerIsMember(n: Cluster, j: nat, g: string)
    requires SystemInv(n) && j < 2 && n[j].up && g in ViewOf(n[j].state.disk).owners
    ensures ViewOf(n[j].state.disk).owners[g] in MembersOf(n[j].state.disk, g)
  {
    MembersAt(n[j].state.disk, g);
  }

  /**
    The owner of a group on a tracker that is up is still its owner, and still a member, on every tracker that is
    up after any further guarded run of the pair, with crashes and restarts.
   */
  lemma {:induction false} OwnerForever(h: PasswordHash, n: Cluster, events: seq<Event>, i: nat, j: nat, g: string)
    requires SystemInv(n) && ValidRun(h, n, events) && Guarded(h, n, events) && i < 2 && j < 2
    requires n[i].up && Final(h, n, events)[j].up && g in ViewOf(n[i].state.disk).owners
    ensures var owner, later := ViewOf(n[i].state.disk).owners[g], Final(h, n, events)[j].state.disk;
            g in ViewOf(later).owners && ViewOf(later).owners[g] == owner && owner in MembersOf(later, g)
  {
    RunsGrow(h, n, events, i, j);
    RunsSystem(h, n, events);
    OwnerIsMember(Final(h, n, events), j, g);
  }

  lemma LogoutOutcome(s: State, u: string)
    requires DiskInv(s.disk)
    ensures DoLogout(s.disk, u).reply == Verdict(u in ViewOf(s.disk).online)
    ensures forall r :: r in Read(DoLogout(s.disk, u).state.disk, Online) ==> Field(r, 0) != u
  {
  }

  /** Logging out answers whether the user was online, and always leaves them offline. */
  lemma LogoutTakesOffline(h: PasswordHash, s: State, u: string)
    requires ReachableUp(h, s)
    ensures DoLogout(s.disk, u).reply == Verdict(u in ViewOf(s.disk).online)
    ensures forall r :: r in Read(DoLogout(s.disk, u).state.disk, Online) ==> Field(r, 0) != u
  {
    ReachableInv(h, s);
    LogoutOutcome(s, u);
  }

  /******* Seeders are usable *******/

  lemma {:induction false} AddressOfOnlyLine(s: File, r: Record)
    requires UniqueBy(s, 0, 0) && r in s
    ensures Field(r, 0) in AddressMap(s) && AddressMap(s)[Field(r, 0)] == (Field(r, 1), Field(r, 2))
  {
    var init, last := s[..|s| - 1], s[|s| - 1];
    if r != last {
      assert s == init + [last];
      assert r in init;
      AddressOfOnlyLine(init, r);
      var i :| 0 <= i < |init| && init[i] == r;
      assert s[i] == r && Field(s[i], 0) != Field(s[|s| - 1], 0);
    }
  }

  /** `give_details` answers the address on a line of `u` in the online file. */
  ghost predicate AddressKnown(s: State, u: string) {
    exists r :: r in Read(s.disk, Online) && Field(r, 0) == u
                && DoGiveDetails(s.disk, u).reply == Address(Field(r, 1), Field(r, 2))
  }

  /** `send_full_path` answers the path on a line of `u`'s own list for the file. */
  ghost predicate PathKnown(s: State, u: string, g: string, f: string) {
    exists r :: r in Read(s.disk, UserFiles(u)) && Field(r, 0) == g && Field(r, 1) == f
                && DoSendFullPath(s, u, g, f).reply == Value(Field(r, 2))
  }

  lemma OnlineMeansAddress(s: State, u: string)
    requires DiskInv(s.disk) && u in ViewOf(s.disk).online
    ensures AddressKnown(s, u)
  {
    var r :| r in Read(s.disk, Online) && Field(r, 0) == u;
    WithBaseSame(s.disk);
    AddressOfOnlyLine(Read(s.disk, Online), r);
  }

  lemma SharingMeansPath(s: State, u: string, g: string, f: string)
    requires Shares(s.disk, u, g, f)
    ensures PathKnown(s, u, g, f)
  {
  }

  lemma SeedersAreSharers(s: State, g: string, f: string, u: string)
    requires DiskInv(s.disk)
    ensures DoGiveSeeders(s.disk, g, f).reply.Seeders?
    ensures u in DoGiveSeeders(s.disk, g, f).reply.who <==> u in ViewOf(s.disk).online && Listed(s.disk, g, u, f)
  {
  }

  lemma SeedersOutcome(s: State, g: string, f: string, u: string)
    requires DiskInv(s.disk)
    ensures var reply := DoGiveSeeders(s.disk, g, f).reply;
            && reply.Seeders?
            && (u in reply.who <==> u in ViewOf(s.disk).online && Shares(s.disk, u, g, f))
            && (u in reply.who ==> AddressKnown(s, u) && PathKnown(s, u, g, f))
  {
    SeedersAreSharers(s, g, f, u);
    ListedIsEntry(s.disk, g, u, f);
    SharesIsEntry(s.disk, u, g, f);
    if u in ViewOf(s.disk).online && Shares(s.disk, u, g, f) {
      OnlineMeansAddress(s, u);
      SharingMeansPath(s, u, g, f);
    }
  }

  /** `give_seeders` returns exactly the online sharers; each has a known address and a path on record. */
  lemma SeedersAreUsable(h: PasswordHash, s: State, g: string, f: string, u: string)
    requires ReachableUp(h, s)
    ensures var reply := DoGiveSeeders(s.disk, g, f).reply;
            && reply.Seeders?
            && (u in reply.who <==> u in ViewOf(s.disk).online && Shares(s.disk, u, g, f))
            && (u in reply.who ==> AddressKnown(s, u) && PathKnown(s, u, g, f))
  {
    ReachableInv(h, s);
    SeedersOutcome(s, g, f, u);
  }

  /******* Listings *******/

  /** `give_sha` to a member answers the one hash every listing of the file carries, or "" for no listing. */
  lemma ShaIsTheHash(h: PasswordHash, s: State, g: string, f: string, u: string)
    requires ReachableUp(h, s) && u in MembersOf(s.disk, g)
    ensures var reply := DoGiveSha(s.disk, g, f, u).reply;
            && reply.Value?
            && (forall r :: r in Read(s.disk, GroupFiles(g)) && Field(r, 3) == f ==> Field(r, 0) == reply.text)
            && ((forall r :: r in Read(s.disk, GroupFiles(g)) ==> Field(r, 3) != f) ==> reply.text == "")
  {
    ReachableInv(h, s);
    ShaOutcome(s.disk, g, f, u);
  }

  lemma ShaOutcome(d: Disk, g: string, f: string, u: string)
    requires DiskInv(d) && u in MembersOf(d, g)
    ensures var reply := DoGiveSha(d, g, f, u).reply;
            && reply.Value?
            && (forall r :: r in Read(d, GroupFiles(g)) && Field(r, 3) == f ==> Field(r, 0) == reply.text)
            && ((forall r :: r in Read(d, GroupFiles(g)) ==> Field(r, 3) != f) ==> reply.text == "")
  {
    WithBaseSame(d);
    LoadIsTrue(d);
    MembersAt(d, g);
    NamedAt(d, g);
    var files := Read(d, GroupFiles(g));
    var first := FindFirst(files, ByField(3, f));
    assert DoGiveSha(d, g, f, u).reply == Value(Field(first, 0));
    forall r | r in files && Field(r, 3) == f ensures Field(r, 0) == Field(first, 0) {
      assert Matches(ByField(3, f), r);
      assert (g, Field(r, 0), Field(r, 3)) in NamedIn(g, files);
      assert (g, Field(first, 0), Field(first, 3)) in NamedIn(g, files);
    }
  }

  /** User `u` is listed in `g`, and shares there, a file with this hash. */
  ghost predicate SharesHash(d: Disk, g: string, u: string, hash: string) {
    exists r :: r in Read(d, GroupFiles(g)) && Field(r, 0) == hash && Field(r, 2) == u && Shares(d, u, g, Field(r, 3))
  }

  lemma UploadLists(s: State, hash: string, size: string, g: string, u: string, name: string, path: string)
    returns (r: Record)
    requires DoUpload(s, hash, size, g, u, name, path).reply == Verdict(true)
    ensures r in Read(DoUpload(s, hash, size, g, u, name, path).state.disk, GroupFiles(g))
    ensures Field(r, 0) == hash && Field(r, 2) == u
  {
    var files := Read(s.disk, GroupFiles(g));
    if Found(files, ByFields(0, hash, 2, u)) {
      var i :| 0 <= i < |files| && Matches(ByFields(0, hash, 2, u), files[i]);
      r := files[i];
    } else {
      r := [hash, size, u, ListedName(files, hash, name)];
    }
  }

  lemma ListedMeansShared(d: Disk, g: string, r: Record)
    requires IndexesOk(ViewOf(d)) && r in Read(d, GroupFiles(g))
    ensures SharesHash(d, g, Field(r, 2), Field(r, 0))
  {
    assert Listed(d, g, Field(r, 2), Field(r, 3));
    ListedIsEntry(d, g, Field(r, 2), Field(r, 3));
    SharesIsEntry(d, Field(r, 2), g, Field(r, 3));
  }

  lemma ShareKeepsIndexes(d: Disk, hash: string, size: string, g: string, u: string, name: string, path: string)
    requires IndexesOk(ViewOf(d)) && u in MembersOf(d, g)
    ensures IndexesOk(ViewOf(Share(d, hash, size, g, u, name, path)))
  {
    MembersAt(d, g);
    ShareView(d, hash, size, g, u, name, path);
  }

  lemma UploadKeepsIndexes(s: State, hash: string, size: string, g: string, u: string, name: string, path: string)
    requires IndexesOk(ViewOf(s.disk))
    ensures IndexesOk(ViewOf(DoUpload(s, hash, size, g, u, name, path).state.disk))
  {
    if u in MembersOf(s.disk, g) {
      ShareKeepsIndexes(s.disk, hash, size, g, u, ListedName(Read(s.disk, GroupFiles(g)), hash, name), path);
    }
  }

  /** An accepted upload leaves the user listed, and sharing, a file with that hash. */
  lemma AcceptedUploadIsShared(h: PasswordHash, s: State, hash: string, size: string, g: string, u: string,
                               name: string, path: string)
    requires ReachableUp(h, s)
    requires DoUpload(s, hash, size, g, u, name, path).reply == Verdict(true)
    ensures SharesHash(DoUpload(s, hash, size, g, u, name, path).state.disk, g, u, hash)
  {
    ReachableInv(h, s);
    UploadKeepsIndexes(s, hash, size, g, u, name, path);
    var r := UploadLists(s, hash, size, g, u, name, path);
    ListedMeansShared(DoUpload(s, hash, size, g, u, name, path).state.disk, g, r);
  }

  /******* Lists *******/

  lemma GroupNames(h: PasswordHash, s: State)
    requires DiskInv(s.disk)
    ensures var reply := Step(h, s, ListGroups).reply;
            reply.Names? && forall g :: g in reply.names <==> MembersOf(s.disk, g) != {}
  {
    var v := ViewOf(s.disk);
    LoadIsTrue(s.disk);
    forall g ensures g in v.owners <==> MembersOf(s.disk, g) != {} {
      MembersAt(s.disk, g);
      if MembersOf(s.disk, g) != {} {
        var u :| u in MembersOf(s.disk, g);
        assert (g, u) in v.members;
      }
    }
  }

  /** `list_groups` answers exactly the groups that have a member. */
  lemma ListsGroupsWithMembers(h: PasswordHash, s: State)
    requires ReachableUp(h, s)
    ensures var reply := Step(h, s, ListGroups).reply;
            reply.Names? && forall g :: g in reply.names <==> MembersOf(s.disk, g) != {}
  {
    ReachableInv(h, s);
    GroupNames(h, s);
  }

  /** A line of the request file asks for `u` to join `g`. */
  ghost predicate HasRequest(d: Disk, g: string, u: string) {
    exists r :: r in Read(d, Pending) && Field(r, 0) == u && Field(r, 1) == g
  }

  /** What `who` is told when asking for the requests of group `g`. */
  ghost predicate TellsRequests(d: Disk, g: string, who: string) {
    var reply := DoListRequests(d, g, who).reply;
    && reply.Names?
    && forall u :: u in reply.names <==>
         && HasRequest(d, g, u)
         && g in ViewOf(d).owners && ViewOf(d).owners[g] == who
  }

  lemma RequestNames(d: Disk, g: string, who: string)
    ensures TellsRequests(d, g, who)
  {
    LoadIsTrue(d);
    var v, reply := ViewOf(d), DoListRequests(d, g, who).reply;
    forall u ensures (u, g) in v.pending <==> HasRequest(d, g, u) {
    }
    if g in v.owners && v.owners[g] == who {
      forall u ensures u in reply.names <==> (u, g) in v.pending {
        assert (u, g) in v.pending ==> (u, g).0 in reply.names;
      }
    }
  }

  /**
    `list_requests` answers a group's owner exactly the users with a request on disk, none of them a member,
    and anyone else nobody.
   */
  lemma OwnerSeesRequests(h: PasswordHash, s: State, g: string, who: string)
    requires ReachableUp(h, s)
    ensures TellsRequests(s.disk, g, who)
    ensures forall u :: u in DoListRequests(s.disk, g, who).reply.names ==> u !in MembersOf(s.disk, g)
  {
    ReachableInv(h, s);
    RequestNames(s.disk, g, who);
    MembersAt(s.disk, g);
  }

  /** Somebody shares file `f` in group `g`. */
  ghost predicate Offered(d: Disk, g: string, f: string) {
    exists u :: Shares(d, u, g, f)
  }

  lemma FileNames(d: Disk, g: string)
    requires DiskInv(d)
    ensures var reply := DoListFiles(d, g).reply;
            reply.Names? && forall f :: f in reply.names <==> Offered(d, g, f)
  {
    var v, files, reply := ViewOf(d), Read(d, GroupFiles(g)), DoListFiles(d, g).reply;
    LoadIsTrue(d);
    WithBaseSame(d);
    if g !in v.owners {
      NoGroupNoFiles(d, g);
    }
    forall f ensures f in Column(files, 3) <==> Offered(d, g, f) {
      if f in Column(files, 3) {
        var r :| r in files && Field(r, 3) == f;
        assert Listed(d, g, Field(r, 2), f);
        ListedIsEntry(d, g, Field(r, 2), f);
        SharesIsEntry(d, Field(r, 2), g, f);
      } else if Offered(d, g, f) {
        var u :| Shares(d, u, g, f);
        ListedIsEntry(d, g, u, f);
        SharesIsEntry(d, u, g, f);
      }
    }
  }

  /** `list_files` answers exactly the files that somebody shares in the group. */
  lemma ListsSharedFiles(h: PasswordHash, s: State, g: string)
    requires ReachableUp(h, s)
    ensures var reply := DoListFiles(s.disk, g).reply;
            reply.Names? && forall f :: f in reply.names <==> Offered(s.disk, g, f)
  {
    ReachableInv(h, s);
    FileNames(s.disk, g);
  }
}
