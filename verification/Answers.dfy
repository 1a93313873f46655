/**
  What the commands about accounts and groups answer and do, in terms of accounts, groups, members, requests and
  what the tracker tells later: for a tracker whose disk is in order, as every reachable one is.
 */
module Answers {
  import opened Store
  import opened Handlers
  import opened View
  import opened Invariants
  import opened Commands
  import opened Replication
  import opened Accounts

  /** Nothing is written and nothing pushed. */
  ghost predicate Unchanged(d: Disk, o: Outcome) {
    o.state.disk == d && o.pushed == []
  }

  /******* Addresses *******/

  /** What `give_details` says of user `w`. */
  function Details(d: Disk, w: string): Reply {
    DoGiveDetails(d, w).reply
  }

  function AddressIn(s: File, w: string): Reply {
    if w in AddressMap(s) then Address(AddressMap(s)[w].0, AddressMap(s)[w].1) else Address("", "")
  }

  lemma DetailsAre(d: Disk, w: string)
    ensures Details(d, w) == AddressIn(Read(d, Online), w)
  {
  }

  lemma AddressSnoc(s: File, u: string, ip: string, port: string, w: string)
    ensures AddressIn(s + [[u, ip, port]], w) == if w == u then Address(ip, port) else AddressIn(s, w)
  {
    assert (s + [[u, ip, port]])[..|s|] == s;
  }

  lemma {:induction false} AddressKeys(s: File)
    ensures AddressMap(s).Keys == Column(s, 0)
  {
    if s != [] {
      var init, last := s[..|s| - 1], s[|s| - 1];
      AddressKeys(init);
      BaseContributions(init, last);
      assert s == init + [last];
    }
  }

  lemma {:induction false} AddressDrop(s: File, u: string, w: string)
    ensures AddressIn(Drop(s, ByField(0, u)), w) == if w == u then Address("", "") else AddressIn(s, w)
  {
    if s != [] {
      var init, last := s[..|s| - 1], s[|s| - 1];
      AddressDrop(init, u, w);
      var kept := Drop(init, ByField(0, u));
      if Field(last, 0) != u {
        assert (kept + [last])[..|kept|] == kept;
      } else {
        assert kept + [] == kept;
      }
    }
  }

  /** `give_details` answers nothing for a user who is offline. */
  lemma OfflineHasNoAddress(d: Disk, u: string)
    requires u !in ViewOf(d).online
    ensures Details(d, u) == Address("", "")
  {
    AddressKeys(Read(d, Online));
    DetailsAre(d, u);
  }

  /******* Logging in *******/

  /** The account exists and the password hashes like its stored secret. */
  predicate KnowsPassword(h: PasswordHash, d: Disk, u: string, pw: string) {
    u in Secrets(d) && h(SaltOf(Secrets(d)[u]), pw) == HashOf(Secrets(d)[u])
  }

  lemma SecretsOfUsers(d: Disk)
    ensures Secrets(d).Keys == ViewOf(d).users
  {
    PairMapKeys(Read(d, Credentials));
  }

  /** `u` is online now, at this address if they were not before; nothing else is different. */
  ghost predicate ComesOnline(d: Disk, d': Disk, u: string, ip: string, port: string) {
    && ViewOf(d') == ViewOf(d).(online := ViewOf(d).online + {u})
    && (u in ViewOf(d).online ==> d' == d)
    && (u !in ViewOf(d).online ==> Details(d', u) == Address(ip, port))
    && forall w :: w != u ==> Details(d', w) == Details(d, w)
  }

  lemma OnlineLine(d: Disk, u: string, ip: string, port: string)
    requires u !in ViewOf(d).online
    ensures ComesOnline(d, Append(d, Online, [u, ip, port]), u, ip, port)
  {
    var d' := Append(d, Online, [u, ip, port]);
    AppendView(d, Online, [u, ip, port]);
    forall w ensures Details(d', w) == if w == u then Address(ip, port) else Details(d, w) {
      DetailsAre(d, w);
      DetailsAre(d', w);
      AddressSnoc(Read(d, Online), u, ip, port, w);
    }
  }

  lemma AlreadyOnline(d: Disk, u: string, ip: string, port: string)
    requires u in ViewOf(d).online
    ensures ComesOnline(d, d, u, ip, port)
  {
    assert ViewOf(d).online + {u} == ViewOf(d).online;
  }

  ghost predicate LoginRight(h: PasswordHash, d: Disk, u: string, pw: string, port: string, ip: string, o: Outcome) {
    && o.reply == Verdict(KnowsPassword(h, d, u, pw))
    && (KnowsPassword(h, d, u, pw) ==> u in ViewOf(d).users && ComesOnline(d, o.state.disk, u, ip, port))
    && (!KnowsPassword(h, d, u, pw) ==> Unchanged(d, o))
  }

  /** `login` succeeds exactly for a registered user with the right password, and puts that user online. */
  lemma LoginIsRight(h: PasswordHash, d: Disk, u: string, pw: string, port: string, ip: string)
    requires DiskInv(d)
    ensures LoginRight(h, d, u, pw, port, ip, DoLogin(h, d, u, pw, port, ip))
  {
    SecretsOfUsers(d);
    LoadIsTrue(d);
    WithBaseSame(d);
    if u in ViewOf(d).online {
      AlreadyOnline(d, u, ip, port);
    } else {
      OnlineLine(d, u, ip, port);
    }
  }

  /******* Signing up *******/

  /** A user's ledgers as `show_downloads` tells them. */
  function Ledgers(d: Disk, u: string): Reply {
    DoShowDownloads(d, u).reply
  }

  ghost predicate SignUpRight(h: PasswordHash, d: Disk, u: string, pw: string, port: string, ip: string, salt: string,
                              o: Outcome)
  {
    var v, d' := ViewOf(d), o.state.disk;
    && o.reply == Verdict(u !in v.users)
    && (u in v.users ==> Unchanged(d, o))
    && (u !in v.users ==>
          && ViewOf(d') == v.(users := v.users + {u}, online := v.online + {u})
          && Secrets(d') == Secrets(d)[u := salt + ":" + h(salt, pw)]
          && Details(d', u) == Address(ip, port)
          && Ledgers(d', u) == Ledger([], [])
          && forall w :: w != u ==> Details(d', w) == Details(d, w) && Ledgers(d', w) == Ledgers(d, w))
  }

  lemma LedgersAre(d: Disk, w: string)
    ensures Ledgers(d, w) == Ledger(Read(d, Downloading(w)), Read(d, Downloaded(w)))
  {
  }

  lemma NewUserFiles(h: PasswordHash, d: Disk, u: string, pw: string, port: string, ip: string, salt: string, w: string)
    ensures var d' := NewUser(h, d, u, pw, port, ip, salt);
            && Read(d', Online) == Read(d, Online) + [[u, ip, port]]
            && Read(d', Downloading(w)) == (if w == u then [] else Read(d, Downloading(w)))
            && Read(d', Downloaded(w)) == (if w == u then [] else Read(d, Downloaded(w)))
  {
  }

  lemma NewUserTold(h: PasswordHash, d: Disk, u: string, pw: string, port: string, ip: string, salt: string, w: string)
    ensures var d' := NewUser(h, d, u, pw, port, ip, salt);
            && Details(d', w) == (if w == u then Address(ip, port) else Details(d, w))
            && Ledgers(d', w) == (if w == u then Ledger([], []) else Ledgers(d, w))
  {
    var d' := NewUser(h, d, u, pw, port, ip, salt);
    NewUserFiles(h, d, u, pw, port, ip, salt, w);
    DetailsAre(d, w);
    DetailsAre(d', w);
    LedgersAre(d, w);
    LedgersAre(d', w);
    AddressSnoc(Read(d, Online), u, ip, port, w);
  }

  lemma SignUpDisk(h: PasswordHash, d: Disk, u: string, pw: string, port: string, ip: string, salt: string)
    requires BASE <= d.Keys
    ensures var o := DoCreateUser(h, d, u, pw, port, ip, salt);
            && o.reply == Verdict(u !in ViewOf(d).users)
            && (u in ViewOf(d).users ==> Unchanged(d, o))
            && (u !in ViewOf(d).users ==> o.state.disk == NewUser(h, d, u, pw, port, ip, salt))
  {
    LoadIsTrue(d);
    WithBaseSame(d);
    WithBaseSame(NewUser(h, d, u, pw, port, ip, salt));
  }

  /** `create_user` succeeds exactly for a new name, and makes an online user with that password and no downloads. */
  lemma SignUpIsRight(h: PasswordHash, d: Disk, u: string, pw: string, port: string, ip: string, salt: string, o: Outcome)
    requires DiskInv(d) && o == DoCreateUser(h, d, u, pw, port, ip, salt)
    ensures SignUpRight(h, d, u, pw, port, ip, salt, o)
  {
    SignUpDisk(h, d, u, pw, port, ip, salt);
    if u !in ViewOf(d).users {
      NewUserKeeps(h, d, u, pw, port, ip, salt);
      NewUserSecrets(h, d, u, pw, port, ip, salt);
      forall w
        ensures Details(o.state.disk, w) == (if w == u then Address(ip, port) else Details(d, w))
        ensures Ledgers(o.state.disk, w) == (if w == u then Ledger([], []) else Ledgers(d, w))
      {
        NewUserTold(h, d, u, pw, port, ip, salt, w);
      }
    }
  }

  /******* Logging out *******/

  ghost predicate LogoutRight(d: Disk, u: string, o: Outcome) {
    var v, d' := ViewOf(d), o.state.disk;
    && o.reply == Verdict(u in v.online)
    && (u !in v.online ==> Unchanged(d, o))
    && ViewOf(d') == v.(online := v.online - {u})
    && Details(d', u) == Address("", "")
    && forall w :: w != u ==> Details(d', w) == Details(d, w)
  }

  lemma LogoutDisk(d: Disk, u: string)
    requires BASE <= d.Keys
    ensures var o := DoLogout(d, u);
            && o.reply == Verdict(u in ViewOf(d).online)
            && (u !in ViewOf(d).online ==> Unchanged(d, o))
            && (u in ViewOf(d).online ==> o.state.disk == Delete(d, Online, ByField(0, u)))
  {
    LoadIsTrue(d);
    WithBaseSame(d);
    WithBaseSame(Delete(d, Online, ByField(0, u)));
  }

  lemma OfflineTold(d: Disk, u: string, w: string)
    ensures Details(Delete(d, Online, ByField(0, u)), w) == if w == u then Address("", "") else Details(d, w)
  {
    DetailsAre(d, w);
    DetailsAre(Delete(d, Online, ByField(0, u)), w);
    AddressDrop(Read(d, Online), u, w);
  }

  /** `logout` answers whether the user was online, and takes exactly that user offline. */
  lemma LogoutIsRight(d: Disk, u: string, o: Outcome)
    requires DiskInv(d) && o == DoLogout(d, u)
    ensures LogoutRight(d, u, o)
  {
    var v := ViewOf(d);
    LogoutDisk(d, u);
    if u in v.online {
      DeleteView(d, Online, ByField(0, u));
      forall w ensures Details(o.state.disk, w) == if w == u then Address("", "") else Details(d, w) {
        OfflineTold(d, u, w);
      }
    } else {
      assert v.online - {u} == v.online;
      OfflineHasNoAddress(d, u);
    }
  }

  /******* Groups *******/

  ghost predicate FoundRight(d: Disk, g: string, u: string, o: Outcome) {
    var v, d' := ViewOf(d), o.state.disk;
    && o.reply == Verdict(g !in v.owners)
    && (g in v.owners ==> Unchanged(d, o))
    && (g !in v.owners ==>
          && ViewOf(d') == v.(owners := v.owners[g := u], members := v.members + {(g, u)})
          && MembersOf(d', g) == {u}
          && forall f :: f != g ==> MembersOf(d', f) == MembersOf(d, f))
  }

  lemma FoundDisk(d: Disk, g: string, u: string)
    requires BASE <= d.Keys
    ensures var o := DoCreateGroup(d, g, u);
            && o.reply == Verdict(g !in ViewOf(d).owners)
            && (g in ViewOf(d).owners ==> Unchanged(d, o))
            && (g !in ViewOf(d).owners ==> o.state.disk == NewGroup(d, g, u))
  {
    LoadIsTrue(d);
    WithBaseSame(d);
    WithBaseSame(NewGroup(d, g, u));
  }

  lemma NewGroupMembers(d: Disk, g: string, u: string, f: string)
    ensures MembersOf(NewGroup(d, g, u), f) == if f == g then {u} else MembersOf(d, f)
  {
    assert [u] in [[u]];
  }

  /** `create_group` succeeds exactly for a new name, and makes a group of its founder, who owns it. */
  lemma FoundIsRight(d: Disk, g: string, u: string, o: Outcome)
    requires DiskInv(d) && o == DoCreateGroup(d, g, u)
    ensures FoundRight(d, g, u, o)
  {
    FoundDisk(d, g, u);
    if g !in ViewOf(d).owners {
      NewGroupView(d, g, u);
      forall f ensures MembersOf(o.state.disk, f) == if f == g then {u} else MembersOf(d, f) {
        NewGroupMembers(d, g, u, f);
      }
    }
  }

  /** A join of an outsider that is written down. */
  ghost predicate NewRequest(s: State, g: string, u: string) {
    g in s.cache.groups && (g, u) !in ViewOf(s.disk).members && !Repeats(s.cache, g, u)
  }

  ghost predicate JoinRight(s: State, g: string, u: string, o: Outcome) {
    var v := ViewOf(s.disk);
    && o.reply == Verdict(g in s.cache.groups)
    && ViewOf(o.state.disk) == v.(pending := v.pending + if NewRequest(s, g, u) then {(u, g)} else {})
    && (!NewRequest(s, g, u) ==> o.state.disk == s.disk)
    && o.pushed == (if g in s.cache.groups && (g, u) !in v.members then [Pending] else [])
    && o.state.cache.(addresses := s.cache.addresses)
       == s.cache.(pending := s.cache.pending + if NewRequest(s, g, u) then {(u, g)} else {})
  }

  /** `join_group` is answered by the cache, and asks for an outsider unless that is known already. */
  lemma JoinIsRight(s: State, g: string, u: string, o: Outcome)
    requires o == DoJoin(s, g, u)
    ensures JoinRight(s, g, u, o)
  {
    MembersAt(s.disk, g);
    AppendView(s.disk, Pending, [u, g]);
    assert s.cache.pending + {} == s.cache.pending && ViewOf(s.disk).pending + {} == ViewOf(s.disk).pending;
  }

  /** The owner, as the cache has it, accepts a known user whose request the cache holds. */
  predicate MayAccept(c: Cache, g: string, u: string, owner: string) {
    g in c.groups && c.groups[g] == owner && u in c.credentials && (u, g) in c.pending
  }

  ghost predicate AcceptRight(s: State, g: string, u: string, owner: string, o: Outcome) {
    var v := ViewOf(s.disk);
    && o.reply == Verdict(MayAccept(s.cache, g, u, owner))
    && (MayAccept(s.cache, g, u, owner) && (g, u) !in v.members ==>
          ViewOf(o.state.disk) == v.(members := v.members + {(g, u)}, pending := v.pending - {(u, g)}))
    && (!MayAccept(s.cache, g, u, owner) || (g, u) in v.members ==> Unchanged(s.disk, o))
    && o.state.cache == s.cache
  }

  /** `accept_request` makes a member of an outsider whose request the cache holds, and takes the request away. */
  lemma AcceptIsRight(s: State, g: string, u: string, owner: string, o: Outcome)
    requires ArityOk(s.disk) && o == DoAccept(s, g, u, owner)
    ensures AcceptRight(s, g, u, owner, o)
  {
    MembersAt(s.disk, g);
    AdmitView(s.disk, g, u);
  }

  /** A member leaves who does not own the group. */
  ghost predicate MayLeave(s: State, g: string, u: string) {
    g in s.cache.groups && s.cache.groups[g] != u && (g, u) in ViewOf(s.disk).members
  }

  ghost predicate LeaveRight(s: State, g: string, u: string, o: Outcome) {
    var v, v' := ViewOf(s.disk), ViewOf(o.state.disk);
    && o.reply == Verdict(MayLeave(s, g, u))
    && (MayLeave(s, g, u) ==>
          && v' == v.(members := v.members - {(g, u)}, listed := Without(v.listed, g, u),
                      shared := Without(v.shared, g, u), named := v'.named)
          && v'.named <= v.named)
    && (!MayLeave(s, g, u) ==> Unchanged(s.disk, o))
  }

  lemma LeaveDisk(s: State, g: string, u: string)
    requires BASE <= s.disk.Keys
    ensures var o := DoLeave(s, g, u);
            && o.reply == Verdict(MayLeave(s, g, u))
            && (MayLeave(s, g, u) ==> o.state.disk == Depart(s.disk, g, u))
            && (!MayLeave(s, g, u) ==> Unchanged(s.disk, o))
  {
    MembersAt(s.disk, g);
    WithBaseSame(Depart(s.disk, g, u));
  }

  /** `leave_group` lets any member go but the owner, with all that they share there and nothing else. */
  lemma LeaveIsRight(s: State, g: string, u: string, o: Outcome)
    requires BASE <= s.disk.Keys && o == DoLeave(s, g, u)
    ensures LeaveRight(s, g, u, o)
  {
    LeaveDisk(s, g, u);
    DepartView(s.disk, g, u);
  }
}
