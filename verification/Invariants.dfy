/** The invariant of a tracker's disk and its preservation by every change the handlers make. */
module Invariants {
  import opened Text
  import opened Store
  import opened Handlers
  import opened View

  /******* The invariant *******/

  /** Every owner is a member; every member is registered and belongs to an existing group. */
  ghost predicate MembersOk(v: View) {
    && (forall g :: g in v.owners ==> (g, v.owners[g]) in v.members)
    && (forall t :: t in v.members ==> t.0 in v.owners && t.1 in v.users)
  }

  /** A request is for an existing group, by someone who is not a member. */
  ghost predicate PendingOk(v: View) {
    forall t :: t in v.pending ==> t.1 in v.owners && (t.1, t.0) !in v.members
  }

  /** The two indexes agree and list members only. */
  ghost predicate IndexesOk(v: View) {
    && v.listed == v.shared
    && forall t :: t in v.listed ==> (t.0, t.1) in v.members
  }

  /** Within a group, file name and file hash determine each other. */
  ghost predicate NamesOk(v: View) {
    && (forall s, t :: s in v.named && t in v.named && s.0 == t.0 ==> (s.1 == t.1 <==> s.2 == t.2))
    && (forall t :: t in v.named ==> t.2 != "")
  }

  ghost predicate ViewInv(v: View) {
    MembersOk(v) && v.online <= v.users && PendingOk(v) && IndexesOk(v) && NamesOk(v)
  }

  function Arity(p: Path): nat {
    match p
    case Online => 3
    case Members(_) => 1
    case GroupFiles(_) => 4
    case UserFiles(_) => 3
    case _ => 2
  }

  /** No handler indexes past the fields of a line. */
  ghost predicate ArityOk(d: Disk) {
    forall p, r :: r in Read(d, p) ==> |r| == Arity(p)
  }

  /** At most one line per online user, per user and file of a group, and per group and file of a user. */
  ghost predicate OnceOk(d: Disk) {
    && UniqueBy(Read(d, Online), 0, 0)
    && (forall g :: UniqueBy(Read(d, GroupFiles(g)), 2, 3))
    && forall u :: UniqueBy(Read(d, UserFiles(u)), 0, 1)
  }

  /** The base files exist and every line is well shaped. */
  ghost predicate ShapeOk(d: Disk) {
    BASE <= d.Keys && ArityOk(d) && OnceOk(d)
  }

  ghost predicate DiskInv(d: Disk) {
    ShapeOk(d) && ViewInv(ViewOf(d))
  }

  lemma EmptyDiskInv(d: Disk)
    requires d.Keys == BASE && forall p :: p in d ==> d[p] == []
    ensures DiskInv(d)
  {
  }

  /******* Line shapes *******/

  lemma ArityUpdate(d: Disk, p: Path, s: File)
    requires ArityOk(d) && forall r :: r in s ==> |r| == Arity(p)
    ensures ArityOk(d[p := s])
  {
  }

  lemma ArityAppend(d: Disk, p: Path, r: Record)
    requires ArityOk(d) && |r| == Arity(p)
    ensures ArityOk(Append(d, p, r))
  {
  }

  lemma ArityDelete(d: Disk, p: Path, m: Match)
    requires ArityOk(d)
    ensures ArityOk(Delete(d, p, m))
  {
  }

  lemma OnceUpdate(d: Disk, p: Path, s: File)
    requires OnceOk(d)
    requires p.Online? ==> UniqueBy(s, 0, 0)
    requires p.GroupFiles? ==> UniqueBy(s, 2, 3)
    requires p.UserFiles? ==> UniqueBy(s, 0, 1)
    ensures OnceOk(d[p := s])
  {
  }

  lemma OnceDelete(d: Disk, p: Path, m: Match)
    requires OnceOk(d)
    ensures OnceOk(Delete(d, p, m))
  {
    var s := Read(d, p);
    if p.Online? {
      DropUnique(s, m, 0, 0);
    } else if p.GroupFiles? {
      DropUnique(s, m, 2, 3);
    } else if p.UserFiles? {
      DropUnique(s, m, 0, 1);
    }
    OnceUpdate(d, p, Drop(s, m));
  }

  lemma OnceOnline(d: Disk, r: Record)
    requires OnceOk(d) && Field(r, 0) !in ViewOf(d).online
    ensures OnceOk(Append(d, Online, r))
  {
  }

  lemma OnceListed(d: Disk, g: string, r: Record)
    requires OnceOk(d) && (g, Field(r, 2), Field(r, 3)) !in ViewOf(d).listed
    ensures OnceOk(Append(d, GroupFiles(g), r))
  {
  }

  lemma OnceShared(d: Disk, u: string, r: Record)
    requires OnceOk(d) && (Field(r, 0), u, Field(r, 1)) !in ViewOf(d).shared
    ensures OnceOk(Append(d, UserFiles(u), r))
  {
  }

  lemma ShapeUpdate(d: Disk, p: Path, s: File)
    requires ShapeOk(d) && forall r :: r in s ==> |r| == Arity(p)
    requires p.Online? ==> UniqueBy(s, 0, 0)
    requires p.GroupFiles? ==> UniqueBy(s, 2, 3)
    requires p.UserFiles? ==> UniqueBy(s, 0, 1)
    ensures ShapeOk(d[p := s])
  {
  }

  lemma ShapeAppend(d: Disk, p: Path, r: Record)
    requires ShapeOk(d) && |r| == Arity(p)
    requires p.Online? ==> Field(r, 0) !in ViewOf(d).online
    requires p.GroupFiles? ==> (p.group, Field(r, 2), Field(r, 3)) !in ViewOf(d).listed
    requires p.UserFiles? ==> (Field(r, 0), p.user, Field(r, 1)) !in ViewOf(d).shared
    ensures ShapeOk(Append(d, p, r))
  {
    ArityAppend(d, p, r);
    match p
    case Online => OnceOnline(d, r);
    case GroupFiles(g) => OnceListed(d, g, r);
    case UserFiles(u) => OnceShared(d, u, r);
    case _ => OnceUpdate(d, p, Read(d, p) + [r]);
  }

  lemma ShapeDelete(d: Disk, p: Path, m: Match)
    requires ShapeOk(d)
    ensures ShapeOk(Delete(d, p, m))
  {
    ArityDelete(d, p, m);
    OnceDelete(d, p, m);
  }

  /******* Logging in and out, signing up *******/

  lemma LoginKeeps(d: Disk, u: string, ip: string, port: string)
    requires DiskInv(d) && u in ViewOf(d).users && u !in ViewOf(d).online
    ensures DiskInv(Append(d, Online, [u, ip, port]))
  {
    ShapeAppend(d, Online, [u, ip, port]);
    AppendView(d, Online, [u, ip, port]);
  }

  lemma LogoutKeeps(d: Disk, u: string)
    requires DiskInv(d)
    ensures DiskInv(Delete(d, Online, ByField(0, u)))
    ensures ViewOf(Delete(d, Online, ByField(0, u))).online == ViewOf(d).online - {u}
  {
    ShapeDelete(d, Online, ByField(0, u));
    DeleteView(d, Online, ByField(0, u));
  }

  /** Truncating a file that is already empty, or a ledger, leaves the view. */
  lemma TruncateView(d: Disk, p: Path)
    requires p.UserFiles? || p.GroupFiles? || p.Downloading? || p.Downloaded?
    requires Read(d, p) == [] || p.Downloading? || p.Downloaded?
    ensures ViewOf(d[p := []]) == ViewOf(d)
    ensures ShapeOk(d) ==> ShapeOk(d[p := []])
  {
    ReplaceView(d, p, []);
    match p
    case UserFiles(u) => SharedAt(d, u);
    case GroupFiles(g) => ListedAt(d, g); NamedAt(d, g);
    case _ =>
    if ShapeOk(d) {
      ShapeUpdate(d, p, []);
    }
  }

  /** An unregistered user shares nothing. */
  lemma StrangerSharesNothing(d: Disk, u: string)
    requires ViewInv(ViewOf(d)) && u !in ViewOf(d).users
    ensures Read(d, UserFiles(u)) == []
  {
    var s := Read(d, UserFiles(u));
    SharedAt(d, u);
    assert SharedBy(u, s) == {};
    NoEntriesNoLines(s, u);
  }

  lemma NewUserKeeps(h: PasswordHash, d: Disk, u: string, pw: string, port: string, ip: string, salt: string)
    requires DiskInv(d) && u !in ViewOf(d).users
    ensures DiskInv(NewUser(h, d, u, pw, port, ip, salt))
    ensures var v := ViewOf(d);
            ViewOf(NewUser(h, d, u, pw, port, ip, salt)) == v.(users := v.users + {u}, online := v.online + {u})
  {
    var line, secret := [u, ip, port], [u, salt + ":" + h(salt, pw)];
    StrangerSharesNothing(d, u);
    ShapeAppend(d, Online, line);
    AppendView(d, Online, line);
    var d1 := Append(d, Online, line);
    ShapeAppend(d1, Credentials, secret);
    AppendView(d1, Credentials, secret);
    var d2 := Append(d1, Credentials, secret);
    TruncateView(d2, UserFiles(u));
    TruncateView(d2[UserFiles(u) := []], Downloading(u));
    TruncateView(d2[UserFiles(u) := []][Downloading(u) := []], Downloaded(u));
  }

  /******* Groups and membership *******/

  /** A group that does not exist lists nothing and has no members. */
  lemma NoGroupNoFiles(d: Disk, g: string)
    requires ViewInv(ViewOf(d)) && g !in ViewOf(d).owners
    ensures Read(d, GroupFiles(g)) == []
    ensures forall t :: t in ViewOf(d).members ==> t.0 != g
  {
    var s := Read(d, GroupFiles(g));
    ListedAt(d, g);
    assert ListedIn(g, s) == {};
    NoEntriesNoLines(s, g);
  }

  lemma NewGroupView(d: Disk, g: string, u: string)
    requires ViewInv(ViewOf(d)) && g !in ViewOf(d).owners
    ensures var v := ViewOf(d);
            ViewOf(NewGroup(d, g, u)) == v.(owners := v.owners[g := u], members := v.members + {(g, u)})
  {
    var d1 := Append(d, Groups, [g, u]);
    NoGroupNoFiles(d, g);
    AppendView(d, Groups, [g, u]);
    FirstMemberView(d1, g, u);
    TruncateView(d1[Members(g) := [[u]]], GroupFiles(g));
  }

  /** Overwriting the member file of a group that has no members. */
  lemma FirstMemberView(d: Disk, g: string, u: string)
    requires forall t :: t in ViewOf(d).members ==> t.0 != g
    ensures ViewOf(d[Members(g) := [[u]]]) == ViewOf(d).(members := ViewOf(d).members + {(g, u)})
  {
    ReplaceView(d, Members(g), [[u]]);
    OneMember(g, u);
  }

  lemma NewGroupShape(d: Disk, g: string, u: string)
    requires ShapeOk(d)
    ensures ShapeOk(NewGroup(d, g, u))
  {
    var d1 := Append(d, Groups, [g, u]);
    ShapeAppend(d, Groups, [g, u]);
    ShapeUpdate(d1, Members(g), [[u]]);
    ShapeUpdate(d1[Members(g) := [[u]]], GroupFiles(g), []);
  }

  lemma NewGroupInv(v: View, g: string, u: string)
    requires ViewInv(v) && g !in v.owners && u in v.users
    ensures ViewInv(v.(owners := v.owners[g := u], members := v.members + {(g, u)}))
  {
  }

  lemma NewGroupKeeps(d: Disk, g: string, u: string)
    requires DiskInv(d) && g !in ViewOf(d).owners && u in ViewOf(d).users
    ensures DiskInv(NewGroup(d, g, u))
  {
    NewGroupShape(d, g, u);
    NewGroupView(d, g, u);
    NewGroupInv(ViewOf(d), g, u);
  }

  lemma JoinKeeps(d: Disk, g: string, u: string)
    requires DiskInv(d) && g in ViewOf(d).owners && (g, u) !in ViewOf(d).members
    ensures DiskInv(Append(d, Pending, [u, g]))
  {
    ShapeAppend(d, Pending, [u, g]);
    AppendView(d, Pending, [u, g]);
  }

  lemma AdmitView(d: Disk, g: string, u: string)
    requires ArityOk(d)
    ensures var v := ViewOf(d);
            ViewOf(Admit(d, g, u)) == v.(members := v.members + {(g, u)}, pending := v.pending - {(u, g)})
  {
    var d1 := Append(d, Members(g), [u]);
    AppendView(d, Members(g), [u]);
    ArityAppend(d, Members(g), [u]);
    assert forall r :: r in Read(d1, Pending) ==> |r| == Arity(Pending);
    DeleteView(d1, Pending, Whole([u, g]));
  }

  lemma AdmitInv(v: View, g: string, u: string)
    requires ViewInv(v) && g in v.owners && u in v.users
    ensures ViewInv(v.(members := v.members + {(g, u)}, pending := v.pending - {(u, g)}))
  {
  }

  lemma AdmitKeeps(d: Disk, g: string, u: string)
    requires DiskInv(d) && g in ViewOf(d).owners && u in ViewOf(d).users
    ensures DiskInv(Admit(d, g, u))
  {
    ShapeAppend(d, Members(g), [u]);
    ShapeDelete(Append(d, Members(g), [u]), Pending, Whole([u, g]));
    AdmitView(d, g, u);
    AdmitInv(ViewOf(d), g, u);
  }

  /******* The two indexes *******/

  lemma ShareView(d: Disk, hash: string, size: string, g: string, u: string, name: string, path: string)
    ensures var v := ViewOf(d);
            ViewOf(Share(d, hash, size, g, u, name, path)) ==
            v.(listed := v.listed + {(g, u, name)}, shared := v.shared + {(g, u, name)},
               named := v.named + {(g, hash, name)})
  {
    AppendListing(d, g, [hash, size, u, name]);
    AppendShare(Append(d, GroupFiles(g), [hash, size, u, name]), u, [g, name, path]);
    ShareAppended(ViewOf(d), hash, size, g, u, name, path);
  }

  lemma ShareAppended(v: View, hash: string, size: string, g: string, u: string, name: string, path: string)
    ensures Appended(Appended(v, GroupFiles(g), [hash, size, u, name]), UserFiles(u), [g, name, path]) ==
            v.(listed := v.listed + {(g, u, name)}, shared := v.shared + {(g, u, name)},
               named := v.named + {(g, hash, name)})
  {
  }

  lemma ShareInv(v: View, g: string, u: string, hash: string, name: string)
    requires ViewInv(v) && (g, u) in v.members && name != ""
    requires forall t :: t in v.named && t.0 == g ==> (t.1 == hash <==> t.2 == name)
    ensures ViewInv(v.(listed := v.listed + {(g, u, name)}, shared := v.shared + {(g, u, name)},
                       named := v.named + {(g, hash, name)}))
  {
  }

  lemma ListingLeavesShared(d: Disk, g: string, r: Record)
    ensures ViewOf(Append(d, GroupFiles(g), r)).shared == ViewOf(d).shared
  {
    AppendListing(d, g, r);
  }

  lemma ShareShape(d: Disk, listing: Record, g: string, u: string, entry: Record)
    requires ShapeOk(d) && |listing| == 4 && |entry| == 3
    requires (g, Field(listing, 2), Field(listing, 3)) !in ViewOf(d).listed
    requires (Field(entry, 0), u, Field(entry, 1)) !in ViewOf(d).shared
    ensures ShapeOk(Append(Append(d, GroupFiles(g), listing), UserFiles(u), entry))
  {
    ShapeAppend(d, GroupFiles(g), listing);
    ListingLeavesShared(d, g, listing);
    ShapeAppend(Append(d, GroupFiles(g), listing), UserFiles(u), entry);
  }

  lemma ShareKeeps(d: Disk, hash: string, size: string, g: string, u: string, name: string, path: string)
    requires DiskInv(d) && (g, u) in ViewOf(d).members && name != "" && (g, u, name) !in ViewOf(d).listed
    requires forall t :: t in ViewOf(d).named && t.0 == g ==> (t.1 == hash <==> t.2 == name)
    ensures DiskInv(Share(d, hash, size, g, u, name, path))
  {
    ShareShape(d, [hash, size, u, name], g, u, [g, name, path]);
    ShareView(d, hash, size, g, u, name, path);
    ShareInv(ViewOf(d), g, u, hash, name);
  }

  lemma UnshareView(d: Disk, g: string, name: string, u: string)
    ensures var v, w := ViewOf(d), ViewOf(Unshare(d, g, name, u));
            && w.named <= v.named
            && w == v.(listed := v.listed - {(g, u, name)}, shared := v.shared - {(g, u, name)}, named := w.named)
  {
    DeleteView(d, GroupFiles(g), ByFields(3, name, 2, u));
    DeleteView(Delete(d, GroupFiles(g), ByFields(3, name, 2, u)), UserFiles(u), ByFields(0, g, 1, name));
  }

  lemma UnshareKeeps(d: Disk, g: string, name: string, u: string)
    requires DiskInv(d)
    ensures DiskInv(Unshare(d, g, name, u))
  {
    ShapeDelete(d, GroupFiles(g), ByFields(3, name, 2, u));
    ShapeDelete(Delete(d, GroupFiles(g), ByFields(3, name, 2, u)), UserFiles(u), ByFields(0, g, 1, name));
    UnshareView(d, g, name, u);
  }

  /** The entries of everyone but `u` in `g`. */
  function Without(entries: set<Entry>, g: string, u: string): set<Entry> {
    set t | t in entries && !(t.0 == g && t.1 == u)
  }

  lemma DepartView(d: Disk, g: string, u: string)
    ensures var v, w := ViewOf(d), ViewOf(Depart(d, g, u));
            && w.named <= v.named
            && w == v.(members := v.members - {(g, u)}, listed := Without(v.listed, g, u),
                       shared := Without(v.shared, g, u), named := w.named)
  {
    var d1 := Delete(d, Members(g), ByField(0, u));
    DeleteView(d, Members(g), ByField(0, u));
    DeleteView(d1, GroupFiles(g), ByField(2, u));
    DeleteView(Delete(d1, GroupFiles(g), ByField(2, u)), UserFiles(u), ByField(0, g));
  }

  lemma DepartInv(v: View, g: string, u: string, named: set<Entry>)
    requires ViewInv(v) && g in v.owners && v.owners[g] != u && named <= v.named
    ensures ViewInv(v.(members := v.members - {(g, u)}, listed := Without(v.listed, g, u),
                       shared := Without(v.shared, g, u), named := named))
  {
  }

  lemma DepartKeeps(d: Disk, g: string, u: string)
    requires DiskInv(d) && g in ViewOf(d).owners && ViewOf(d).owners[g] != u
    ensures DiskInv(Depart(d, g, u))
  {
    var d1 := Delete(d, Members(g), ByField(0, u));
    ShapeDelete(d, Members(g), ByField(0, u));
    ShapeDelete(d1, GroupFiles(g), ByField(2, u));
    ShapeDelete(Delete(d1, GroupFiles(g), ByField(2, u)), UserFiles(u), ByField(0, g));
    DepartView(d, g, u);
    DepartInv(ViewOf(d), g, u, ViewOf(Depart(d, g, u)).named);
  }

  /** The download ledgers are no part of the view. */
  lemma LedgerAppendKeeps(d: Disk, p: Path, r: Record)
    requires DiskInv(d) && (p.Downloading? || p.Downloaded?) && |r| == 2
    ensures DiskInv(Append(d, p, r)) && ViewOf(Append(d, p, r)) == ViewOf(d)
  {
    ShapeAppend(d, p, r);
    AppendView(d, p, r);
  }

  lemma FinishKeeps(d: Disk, g: string, name: string, u: string)
    requires DiskInv(d)
    ensures DiskInv(Finish(d, g, name, u)) && ViewOf(Finish(d, g, name, u)) == ViewOf(d)
  {
    ShapeDelete(d, Downloading(u), Whole([g, name]));
    DeleteView(d, Downloading(u), Whole([g, name]));
    LedgerAppendKeeps(Delete(d, Downloading(u), Whole([g, name])), Downloaded(u), [g, name]);
  }
}
