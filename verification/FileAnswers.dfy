/**
  What the commands about files answer and do: sharing, listing, seeders, sizes, paths and downloads; again for a
  tracker whose disk is in order.
 */
module FileAnswers {
  import opened Text
  import opened Store
  import opened Handlers
  import opened View
  import opened Invariants
  import opened Commands
  import opened Guarantees
  import opened Answers

  /******* Seeders and sizes *******/

  /** Line `i` is the last one of the list for file `f`. */
  ghost predicate IsLast(files: File, f: string, i: nat) {
    i < |files| && Field(files[i], 3) == f && forall k :: i < k < |files| ==> Field(files[k], 3) != f
  }

  /** Line `i` is the first one of the list for file `f`. */
  ghost predicate IsFirst(files: File, f: string, i: nat) {
    i < |files| && Field(files[i], 3) == f && forall k :: 0 <= k < i ==> Field(files[k], 3) != f
  }

  lemma {:induction false} LastListing(files: File, f: string, i: nat)
    requires IsLast(files, f, i)
    ensures FindLast(files, ByField(3, f)) == files[i]
  {
    if i < |files| - 1 {
      LastListing(files[..|files| - 1], f, i);
    }
  }

  lemma {:induction false} FirstListing(files: File, f: string, i: nat)
    requires IsFirst(files, f, i)
    ensures FindFirst(files, ByField(3, f)) == files[i]
  {
    if i > 0 {
      assert Field(files[0], 3) != f;
      FirstListing(files[1..], f, i - 1);
    }
  }

  lemma {:induction false} SomeLast(files: File, r: Record) returns (i: nat)
    requires r in files
    ensures IsLast(files, Field(r, 3), i)
  {
    var last := |files| - 1;
    if Field(files[last], 3) == Field(r, 3) {
      i := last;
    } else {
      assert files == files[..last] + [files[last]];
      i := SomeLast(files[..last], r);
    }
  }

  /** The users told are the online sharers; with any, the size is the one of the last listing. */
  ghost predicate SeedersRight(d: Disk, g: string, f: string, o: Outcome) {
    var files := Read(d, GroupFiles(g));
    && o.reply.Seeders?
    && (forall u :: u in o.reply.who <==> u in ViewOf(d).online && Listed(d, g, u, f))
    && (o.reply.who == {} ==> o.reply.size == "")
    && (o.reply.who != {} ==> exists i: nat :: IsLast(files, f, i) && o.reply.size == Field(files[i], 1))
    && Unchanged(d, o)
  }

  lemma {:induction false} SeedersReply(d: Disk, g: string, f: string)
    requires BASE <= d.Keys
    ensures var o, files := DoGiveSeeders(d, g, f), Read(d, GroupFiles(g));
            && Unchanged(d, o)
            && o.reply == Seeders(OnlineSharers(files, f, ViewOf(d).online),
                                  if OnlineSharers(files, f, ViewOf(d).online) == {} then ""
                                  else Field(FindLast(files, ByField(3, f)), 1))
  {
    LoadIsTrue(d);
    WithBaseSame(d);
  }

  /** `give_seeders` names exactly the online sharers, and the size on the last listing of the file. */
  lemma SeedersAreRight(d: Disk, g: string, f: string, o: Outcome)
    requires BASE <= d.Keys && o == DoGiveSeeders(d, g, f)
    ensures SeedersRight(d, g, f, o)
  {
    var files := Read(d, GroupFiles(g));
    SeedersReply(d, g, f);
    if o.reply.who != {} {
      var u :| u in o.reply.who;
      var r :| r in files && Field(r, 3) == f && Field(r, 2) == u;
      var i := SomeLast(files, r);
      LastListing(files, f, i);
    }
  }

  /** When all listings of a file carry one size, that size is the answer. */
  lemma OneSizeIsTheSize(d: Disk, g: string, f: string, size: string, o: Outcome)
    requires SeedersRight(d, g, f, o) && o.reply.who != {}
    requires forall r :: r in Read(d, GroupFiles(g)) && Field(r, 3) == f ==> Field(r, 1) == size
    ensures o.reply.size == size
  {
  }

  /** If any seeder of the file is online, `give_seeders` tells this size. */
  ghost predicate SizeTold(d: Disk, g: string, f: string, size: string) {
    var reply := DoGiveSeeders(d, g, f).reply;
    reply.Seeders? && (reply.who != {} ==> reply.size == size)
  }

  lemma NewestSize(d: Disk, g: string, files: File, line: Record)
    requires BASE <= d.Keys && Read(d, GroupFiles(g)) == files + [line]
    ensures SizeTold(d, g, Field(line, 3), Field(line, 1))
  {
    var all := files + [line];
    SeedersReply(d, g, Field(line, 3));
    assert all[|files|] == line;
    LastListing(all, Field(line, 3), |files|);
  }

  /******* Hashes *******/

  /** The file's hash and size are those of its first listing, if it has one. */
  ghost predicate CopiedFrom(files: File, f: string, hash: string, size: string) {
    && (forall i: nat :: IsFirst(files, f, i) ==> hash == Field(files[i], 0) && size == Field(files[i], 1))
    && ((forall r :: r in files ==> Field(r, 3) != f) ==> hash == "" && size == "")
  }

  lemma {:induction false} FirstIsCopied(files: File, f: string)
    ensures var first := FindFirst(files, ByField(3, f)); CopiedFrom(files, f, Field(first, 0), Field(first, 1))
  {
    forall i: nat | IsFirst(files, f, i) ensures FindFirst(files, ByField(3, f)) == files[i] {
      FirstListing(files, f, i);
    }
  }

  /** A member is told the hash of the file's first listing, an outsider nothing, whether or not the group exists. */
  ghost predicate ShaRight(d: Disk, g: string, f: string, u: string, o: Outcome) {
    var files, d' := Read(d, GroupFiles(g)), o.state.disk;
    && o.reply.Value?
    && (u !in MembersOf(d, g) ==> o.reply == Value("") && Unchanged(d, o))
    && (u in MembersOf(d, g) ==>
          && (forall i: nat :: IsFirst(files, f, i) ==> o.reply == Value(Field(files[i], 0)))
          && ((forall r :: r in files ==> Field(r, 3) != f) ==> o.reply == Value(""))
          && ViewOf(d') == ViewOf(d)
          && Read(d', Downloading(u)) == Read(d, Downloading(u)) + [[g, f]]
          && Read(d', Downloaded(u)) == Read(d, Downloaded(u)))
  }

  lemma ShaDisk(d: Disk, g: string, f: string, u: string)
    requires DiskInv(d)
    ensures var o := DoGiveSha(d, g, f, u);
            && (u !in MembersOf(d, g) ==> o.reply == Value("") && Unchanged(d, o))
            && (u in MembersOf(d, g) ==>
                  && o.reply == Value(Field(FindFirst(Read(d, GroupFiles(g)), ByField(3, f)), 0))
                  && o.state.disk == Append(d, Downloading(u), [g, f]))
  {
    LoadIsTrue(d);
    WithBaseSame(d);
    MembersAt(d, g);
  }

  /** `give_sha` tells members the hash and logs the attempt; it tells outsiders nothing and logs nothing. */
  lemma ShaIsRight(d: Disk, g: string, f: string, u: string, o: Outcome)
    requires DiskInv(d) && o == DoGiveSha(d, g, f, u)
    ensures ShaRight(d, g, f, u, o)
  {
    var first := FindFirst(Read(d, GroupFiles(g)), ByField(3, f));
    ShaDisk(d, g, f, u);
    FirstIsCopied(Read(d, GroupFiles(g)), f);
    ShaFromDisk(d, g, f, u, Field(first, 0), Field(first, 1), o);
  }

  lemma ShaFromDisk(d: Disk, g: string, f: string, u: string, hash: string, size: string, o: Outcome)
    requires CopiedFrom(Read(d, GroupFiles(g)), f, hash, size)
    requires u !in MembersOf(d, g) ==> o.reply == Value("") && Unchanged(d, o)
    requires u in MembersOf(d, g) ==> o.reply == Value(hash) && o.state.disk == Append(d, Downloading(u), [g, f])
    ensures ShaRight(d, g, f, u, o)
  {
    AppendView(d, Downloading(u), [g, f]);
  }

  /******* Addresses and paths *******/

  /** `give_details` tells an online user's address on record, and nothing of anyone else. */
  ghost predicate DetailsRight(d: Disk, u: string, o: Outcome) {
    && (forall r :: r in Read(d, Online) && Field(r, 0) == u ==> o.reply == Address(Field(r, 1), Field(r, 2)))
    && (u !in ViewOf(d).online ==> o.reply == Address("", ""))
    && Unchanged(d, o)
  }

  lemma DetailsIsRight(d: Disk, u: string, o: Outcome)
    requires DiskInv(d) && o == DoGiveDetails(d, u)
    ensures DetailsRight(d, u, o)
  {
    WithBaseSame(d);
    DetailsAre(d, u);
    forall r | r in Read(d, Online) && Field(r, 0) == u ensures o.reply == Address(Field(r, 1), Field(r, 2)) {
      AddressOfOnlyLine(Read(d, Online), r);
    }
    if u !in ViewOf(d).online {
      OfflineHasNoAddress(d, u);
    }
  }

  /** The path told is the one on the user's only entry for the file, or none. */
  ghost predicate PathRight(s: State, u: string, g: string, f: string, o: Outcome) {
    && (forall r :: r in Read(s.disk, UserFiles(u)) && Field(r, 0) == g && Field(r, 1) == f ==>
          o.reply == Value(Field(r, 2)))
    && (!Shares(s.disk, u, g, f) ==> o.reply == Value(""))
    && Unchanged(s.disk, o) && o.state == s
  }

  lemma OnlyEntry(own: File, r: Record, q: Record)
    requires UniqueBy(own, 0, 1) && r in own && q in own
    requires Field(r, 0) == Field(q, 0) && Field(r, 1) == Field(q, 1)
    ensures r == q
  {
    var i :| 0 <= i < |own| && own[i] == r;
    var k :| 0 <= k < |own| && own[k] == q;
    assert i == k;
  }

  lemma PathIsRight(s: State, u: string, g: string, f: string, o: Outcome)
    requires OnceOk(s.disk) && o == DoSendFullPath(s, u, g, f)
    ensures PathRight(s, u, g, f, o)
  {
    var own := Read(s.disk, UserFiles(u));
    var first := FindFirst(own, ByFields(0, g, 1, f));
    forall r | r in own && Field(r, 0) == g && Field(r, 1) == f ensures first == r {
      assert Matches(ByFields(0, g, 1, f), r);
      OnlyEntry(own, first, r);
    }
    if !Shares(s.disk, u, g, f) {
      assert first == [];
    }
  }

  /** `send_full_path` tells this path. */
  ghost predicate PathTold(s: State, u: string, g: string, f: string, path: string) {
    DoSendFullPath(s, u, g, f).reply == Value(path)
  }

  lemma {:induction false} FindNewest(own: File, m: Match, line: Record)
    requires (forall r :: r in own ==> !Matches(m, r)) && Matches(m, line)
    ensures FindFirst(own + [line], m) == line
  {
    if own != [] {
      assert own[0] in own;
      assert (own + [line])[1..] == own[1..] + [line];
      FindNewest(own[1..], m, line);
    }
  }

  lemma NewestPath(s: State, u: string, g: string, own: File, f: string, path: string)
    requires Read(s.disk, UserFiles(u)) == own + [[g, f, path]]
    requires forall r :: r in own ==> !(Field(r, 0) == g && Field(r, 1) == f)
    ensures PathTold(s, u, g, f, path)
  {
    FindNewest(own, ByFields(0, g, 1, f), [g, f, path]);
  }

  /******* Uploads *******/

  /** The name under which a hash is listed in the group: its own one there, or else the one given. */
  ghost predicate NameFor(v: View, g: string, hash: string, name: string, listed: string) {
    && (HasHash(v, g, hash) ==> (g, hash, listed) in v.named)
    && (!HasHash(v, g, hash) ==> listed == name)
  }

  /** The group's list has a line of the user for this hash. */
  ghost predicate ListsHash(d: Disk, g: string, u: string, hash: string) {
    exists r :: r in Read(d, GroupFiles(g)) && Field(r, 0) == hash && Field(r, 2) == u
  }

  /** Another hash of the group has the name. */
  ghost predicate TakenName(v: View, g: string, hash: string, listed: string) {
    exists t :: t in v.named && t.0 == g && t.2 == listed && t.1 != hash
  }

  /** One file of one user is shared in one group, with this hash, size and path. */
  ghost predicate NowShared(d: Disk, s': State, hash: string, size: string, g: string, u: string, f: string, path: string) {
    var v := ViewOf(d);
    && ViewOf(s'.disk) == v.(listed := v.listed + {(g, u, f)}, shared := v.shared + {(g, u, f)},
                             named := v.named + {(g, hash, f)})
    && SizeTold(s'.disk, g, f, size)
    && PathTold(s', u, g, f, path)
  }

  ghost predicate UploadRight(s: State, hash: string, size: string, g: string, u: string, name: string, path: string,
                              listed: string, o: Outcome)
  {
    var v := ViewOf(s.disk);
    var member := g in s.cache.groups && (g, u) in v.members;
    var shares, taken := ListsHash(s.disk, g, u, hash), TakenName(v, g, hash, listed);
    && NameFor(v, g, hash, name, listed)
    && o.reply == Verdict(member && (shares || !taken))
    && (member && !shares && !taken ==> NowShared(s.disk, o.state, hash, size, g, u, listed, path))
    && (!member || shares || taken ==> Unchanged(s.disk, o))
    && o.state.cache == s.cache
  }

  lemma ShareTold(d: Disk, s': State, hash: string, size: string, g: string, u: string, f: string, path: string)
    requires BASE <= d.Keys && (g, u, f) !in ViewOf(d).shared
    requires s'.disk == Share(d, hash, size, g, u, f, path)
    ensures NowShared(d, s', hash, size, g, u, f, path)
  {
    var own := Read(d, UserFiles(u));
    ShareView(d, hash, size, g, u, f, path);
    NewestSize(s'.disk, g, Read(d, GroupFiles(g)), [hash, size, u, f]);
    forall r | r in own ensures !(Field(r, 0) == g && Field(r, 1) == f) {
      SharesIsEntry(d, u, g, f);
      assert Shares(d, u, g, f) || Field(r, 0) != g || Field(r, 1) != f;
    }
    NewestPath(s', u, g, own, f, path);
  }

  lemma ScansAre(d: Disk, g: string, u: string, hash: string, listed: string)
    ensures Found(Read(d, GroupFiles(g)), ByFields(0, hash, 2, u)) <==> ListsHash(d, g, u, hash)
    ensures NameTaken(Read(d, GroupFiles(g)), hash, listed) <==> TakenName(ViewOf(d), g, hash, listed)
  {
    var files := Read(d, GroupFiles(g));
    NamedAt(d, g);
    if TakenName(ViewOf(d), g, hash, listed) {
      var t :| t in ViewOf(d).named && t.0 == g && t.2 == listed && t.1 != hash;
      assert t in NamedIn(g, files);
      var r :| r in files && t == (g, Field(r, 0), Field(r, 3));
      assert exists i :: 0 <= i < |files| && files[i] == r;
    }
    if NameTaken(files, hash, listed) {
      var i :| 0 <= i < |files| && Field(files[i], 0) != hash && Field(files[i], 3) == listed;
      assert (g, Field(files[i], 0), Field(files[i], 3)) in NamedIn(g, files);
    }
    if ListsHash(d, g, u, hash) {
      var r :| r in files && Field(r, 0) == hash && Field(r, 2) == u;
      assert exists i :: 0 <= i < |files| && files[i] == r;
    }
  }

  /** A user who has no line for a hash has none for a name that only this hash may have. */
  lemma NotListedYet(d: Disk, g: string, u: string, hash: string, listed: string)
    requires !ListsHash(d, g, u, hash) && !TakenName(ViewOf(d), g, hash, listed) && IndexesOk(ViewOf(d))
    ensures (g, u, listed) !in ViewOf(d).shared
  {
    var files := Read(d, GroupFiles(g));
    ListedIsEntry(d, g, u, listed);
    NamedAt(d, g);
    forall r | r in files && Field(r, 2) == u ensures Field(r, 3) != listed {
      assert (g, Field(r, 0), Field(r, 3)) in NamedIn(g, files);
    }
  }

  /** The three checks, and the two lines written when they pass. */
  ghost predicate Uploads(s: State, hash: string, size: string, g: string, u: string, path: string, listed: string,
                          o: Outcome)
  {
    var v := ViewOf(s.disk);
    var member := g in s.cache.groups && (g, u) in v.members;
    var shares, taken := ListsHash(s.disk, g, u, hash), TakenName(v, g, hash, listed);
    && o.reply == Verdict(member && (shares || !taken))
    && (member && !shares && !taken ==> o.state.disk == Share(s.disk, hash, size, g, u, listed, path))
    && (!member || shares || taken ==> Unchanged(s.disk, o))
    && o.state.cache == s.cache
  }

  lemma UploadDisk(s: State, hash: string, size: string, g: string, u: string, name: string, path: string,
                   listed: string, o: Outcome)
    requires o == DoUpload(s, hash, size, g, u, name, path) && listed == ListedName(Read(s.disk, GroupFiles(g)), hash, name)
    ensures Uploads(s, hash, size, g, u, path, listed, o)
  {
    MembersAt(s.disk, g);
    ScansAre(s.disk, g, u, hash, listed);
  }

  /**
    `upload_file` succeeds exactly for members, under the group's name for the hash, unless another hash has that
    name; and the file is then told with the size and path given.
   */
  lemma UploadIsRight(s: State, hash: string, size: string, g: string, u: string, name: string, path: string, o: Outcome)
    returns (listed: string)
    requires DiskInv(s.disk) && o == DoUpload(s, hash, size, g, u, name, path)
    ensures UploadRight(s, hash, size, g, u, name, path, listed, o)
  {
    listed := ListedName(Read(s.disk, GroupFiles(g)), hash, name);
    ListedNameIs(s.disk, g, hash, name);
    UploadDisk(s, hash, size, g, u, name, path, listed, o);
    UploadFromDisk(s, hash, size, g, u, name, path, listed, o);
  }

  lemma UploadFromDisk(s: State, hash: string, size: string, g: string, u: string, name: string, path: string,
                       listed: string, o: Outcome)
    requires DiskInv(s.disk) && NameFor(ViewOf(s.disk), g, hash, name, listed)
    requires Uploads(s, hash, size, g, u, path, listed, o)
    ensures UploadRight(s, hash, size, g, u, name, path, listed, o)
  {
    if !ListsHash(s.disk, g, u, hash) && !TakenName(ViewOf(s.disk), g, hash, listed) {
      NotListedYet(s.disk, g, u, hash, listed);
      if o.state.disk == Share(s.disk, hash, size, g, u, listed, path) {
        ShareTold(s.disk, o.state, hash, size, g, u, listed, path);
      }
    }
  }

  /******* Ending a share *******/

  ghost predicate StopRight(s: State, g: string, f: string, u: string, o: Outcome) {
    var v, v' := ViewOf(s.disk), ViewOf(o.state.disk);
    var may := g in s.cache.groups && u in s.cache.credentials && (g, u) in v.members;
    && o.reply == Verdict(may)
    && (may ==>
          && v' == v.(listed := v.listed - {(g, u, f)}, shared := v.shared - {(g, u, f)}, named := v'.named)
          && v'.named <= v.named
          && PathTold(o.state, u, g, f, ""))
    && (!may ==> Unchanged(s.disk, o))
    && o.state.cache == s.cache
  }

  lemma NoPathTold(s: State, u: string, g: string, f: string)
    requires (g, u, f) !in ViewOf(s.disk).shared
    ensures PathTold(s, u, g, f, "")
  {
    SharesIsEntry(s.disk, u, g, f);
  }

  /** `stop_share` takes exactly this file of this member from both lists. */
  lemma StopIsRight(s: State, g: string, f: string, u: string, o: Outcome)
    requires o == DoStopShare(s, g, f, u)
    ensures StopRight(s, g, f, u, o)
  {
    MembersAt(s.disk, g);
    UnshareView(s.disk, g, f, u);
    NoPathTold(State(Unshare(s.disk, g, f, u), s.cache), u, g, f);
  }

  /******* Downloads *******/

  ghost predicate AddRight(d: Disk, g: string, f: string, path: string, u: string, hash: string, size: string, o: Outcome) {
    && o.reply == Silence
    && CopiedFrom(Read(d, GroupFiles(g)), f, hash, size)
    && (OwnsName(ViewOf(d), u, f) ==> Unchanged(d, o))
    && (!OwnsName(ViewOf(d), u, f) ==> NowShared(d, o.state, hash, size, g, u, f, path))
  }

  lemma AddDisk(d: Disk, g: string, f: string, path: string, u: string, o: Outcome)
    requires BASE <= d.Keys && o == DoAddFile(d, g, f, path, u)
    ensures var first := FindFirst(Read(d, GroupFiles(g)), ByField(3, f));
            && o.reply == Silence
            && (OwnsName(ViewOf(d), u, f) ==> Unchanged(d, o))
            && (!OwnsName(ViewOf(d), u, f) ==>
                  o.state.disk == Share(d, Field(first, 0), Field(first, 1), g, u, f, path))
  {
    WithBaseSame(d);
    FoundMeansOwned(d, u, f);
  }

  /** `add_file` shares the file with the hash and size of its first listing, unless the user owns the name already. */
  lemma AddIsRight(d: Disk, g: string, f: string, path: string, u: string, o: Outcome) returns (hash: string, size: string)
    requires BASE <= d.Keys && o == DoAddFile(d, g, f, path, u)
    ensures AddRight(d, g, f, path, u, hash, size, o)
  {
    var first := FindFirst(Read(d, GroupFiles(g)), ByField(3, f));
    hash, size := Field(first, 0), Field(first, 1);
    AddDisk(d, g, f, path, u, o);
    FirstIsCopied(Read(d, GroupFiles(g)), f);
    if !OwnsName(ViewOf(d), u, f) {
      assert (g, u, f) !in ViewOf(d).shared;
      ShareTold(d, o.state, hash, size, g, u, f, path);
    }
  }

  ghost predicate CompleteRight(d: Disk, g: string, f: string, u: string, o: Outcome) {
    var d' := o.state.disk;
    && o.reply == Silence
    && ViewOf(d') == ViewOf(d)
    && Ledgers(d', u).Ledger?
    && (forall r :: r in Ledgers(d', u).downloading <==> r in Read(d, Downloading(u)) && r != [g, f])
    && Ledgers(d', u).downloaded == Read(d, Downloaded(u)) + [[g, f]]
    && forall w :: w != u ==> Ledgers(d', w) == Ledgers(d, w)
  }

  lemma CompleteTold(d: Disk, g: string, f: string, u: string, w: string)
    ensures Ledgers(Finish(d, g, f, u), w)
         == if w == u then Ledger(Drop(Read(d, Downloading(u)), Whole([g, f])), Read(d, Downloaded(u)) + [[g, f]])
            else Ledgers(d, w)
  {
    LedgersAre(d, w);
    LedgersAre(Finish(d, g, f, u), w);
  }

  /** `complete` moves the file from the user's downloads in progress to the completed ones. */
  lemma CompleteIsRight(d: Disk, g: string, f: string, u: string, o: Outcome)
    requires DiskInv(d) && o == DoComplete(d, g, f, u)
    ensures CompleteRight(d, g, f, u, o)
  {
    WithBaseSame(d);
    FinishKeeps(d, g, f, u);
    forall w
      ensures Ledgers(o.state.disk, w)
           == if w == u then Ledger(Drop(Read(d, Downloading(u)), Whole([g, f])), Read(d, Downloaded(u)) + [[g, f]])
              else Ledgers(d, w)
    {
      CompleteTold(d, g, f, u, w);
    }
  }
}
