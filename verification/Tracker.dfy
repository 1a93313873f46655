/** The tracker as the program runs it: caches and files changed step by step, line loops, one method per handler. */
module Tracker {
  import opened Text
  import opened Store
  import opened Handlers

  /******* Line loops *******/

  method LoadPairs(lines: File) returns (m: map<string, string>)
    ensures m == PairMap(lines)
  {
    m := map[];
    for i := 0 to |lines|
      invariant m == PairMap(lines[..i])
    {
      assert lines[..i + 1][..i] == lines[..i];
      m := m[Field(lines[i], 0) := Field(lines[i], 1)];
    }
    assert lines[..|lines|] == lines;
  }

  method LoadColumn(lines: File, i: nat) returns (c: set<string>)
    ensures c == Column(lines, i)
  {
    c := {};
    for k := 0 to |lines|
      invariant c == Column(lines[..k], i)
    {
      assert lines[..k + 1] == lines[..k] + [lines[k]];
      c := c + {Field(lines[k], i)};
    }
    assert lines[..|lines|] == lines;
  }

  method LoadAddresses(lines: File) returns (m: map<string, (string, string)>)
    ensures m == AddressMap(lines)
  {
    m := map[];
    for i := 0 to |lines|
      invariant m == AddressMap(lines[..i])
    {
      assert lines[..i + 1][..i] == lines[..i];
      m := m[Field(lines[i], 0) := (Field(lines[i], 1), Field(lines[i], 2))];
    }
    assert lines[..|lines|] == lines;
  }

  method LoadRequests(lines: File) returns (c: set<(string, string)>)
    ensures c == PairSet(lines)
  {
    c := {};
    for k := 0 to |lines|
      invariant c == PairSet(lines[..k])
    {
      assert lines[..k + 1] == lines[..k] + [lines[k]];
      c := c + {(Field(lines[k], 0), Field(lines[k], 1))};
    }
    assert lines[..|lines|] == lines;
  }

  /** `CheckGroupFiles` and the early-return scans: some line matches. */
  method ScanFor(lines: File, m: Match) returns (found: bool)
    ensures found == Found(lines, m)
  {
    for i := 0 to |lines|
      invariant forall k :: 0 <= k < i ==> !Matches(m, lines[k])
    {
      if Matches(m, lines[i]) {
        return true;
      }
    }
    return false;
  }

  lemma {:induction false} FindFirstSkips(s: File, m: Match, i: nat)
    requires i <= |s| && forall k :: 0 <= k < i ==> !Matches(m, s[k])
    ensures FindFirst(s, m) == FindFirst(s[i..], m)
  {
    if i > 0 {
      FindFirstSkips(s[1..], m, i - 1);
      assert s[1..][i - 1..] == s[i..];
    }
  }

  /** The scans that stop at the first matching line. */
  method ScanFirst(lines: File, m: Match) returns (r: Record)
    ensures r == FindFirst(lines, m)
  {
    for i := 0 to |lines|
      invariant forall k :: 0 <= k < i ==> !Matches(m, lines[k])
    {
      if Matches(m, lines[i]) {
        FindFirstSkips(lines, m, i);
        return lines[i];
      }
    }
    FindFirstSkips(lines, m, |lines|);
    return [];
  }

  /** `CheckIntegrity`. */
  method CheckIntegrity(lines: File, hash: string, name: string) returns (taken: bool)
    ensures taken == NameTaken(lines, hash, name)
  {
    for i := 0 to |lines|
      invariant forall k :: 0 <= k < i ==> !(Field(lines[k], 0) != hash && Field(lines[k], 3) == name)
    {
      if Field(lines[i], 0) != hash && Field(lines[i], 3) == name {
        return true;
      }
    }
    return false;
  }

  /** The loop of `give_seeders`: the size of the last listing of the file, and its online sharers. */
  method ScanSeeders(lines: File, name: string, online: set<string>) returns (who: set<string>, size: string)
    ensures who == OnlineSharers(lines, name, online)
    ensures size == Field(FindLast(lines, ByField(3, name)), 1)
  {
    who, size := {}, "";
    for i := 0 to |lines|
      invariant who == OnlineSharers(lines[..i], name, online)
      invariant size == Field(FindLast(lines[..i], ByField(3, name)), 1)
    {
      assert lines[..i + 1][..i] == lines[..i];
      if Field(lines[i], 3) == name {
        size := Field(lines[i], 1);
        if Field(lines[i], 2) in online {
          who := who + {Field(lines[i], 2)};
        }
      }
    }
    assert lines[..|lines|] == lines;
  }

  /******* The tracker *******/

  class Tracker {
    var disk: Disk
    var credentials: map<string, string>
    var online: set<string>
    var addresses: map<string, (string, string)>
    var groups: map<string, string>
    var pending: set<(string, string)>
    /** Reloaded from the group's file before every use. */
    var groupMembers: set<string>

    /** The state the handlers' specification speaks about. */
    function Current(): State
      reads this
    {
      State(disk, Cache(credentials, online, addresses, groups, pending))
    }

    /** Start-up on a directory left by an earlier run, or an empty one. */
    constructor (left: Disk)
      ensures Current() == Refresh(left)
    {
      disk, groupMembers := left, {};
      credentials, online, addresses, groups, pending := map[], {}, map[], map[], {};
      new;
      FetchDetails();
    }

    /** Loads one base file, creating it when missing. */
    method Open(p: Path) returns (lines: File)
      modifies this`disk
      ensures disk == Opened(old(disk), p)
      ensures lines == Read(old(disk), p)
    {
      if p in disk {
        lines := disk[p];
      } else {
        disk := disk[p := []];
        lines := [];
      }
    }

    method FetchDetails()
      modifies this`disk, this`credentials, this`online, this`addresses, this`groups, this`pending
      ensures Current() == Refresh(old(disk))
    {
      ghost var d0 := disk;
      var lines := Open(Credentials);
      credentials := LoadPairs(lines);
      ghost var d1 := disk;
      lines := Open(Online);
      OpenedRead(d0, Credentials, Online);
      online := LoadColumn(lines, 0);
      addresses := LoadAddresses(lines);
      ghost var d2 := disk;
      lines := Open(Groups);
      OpenedRead(d0, Credentials, Groups);
      OpenedRead(d1, Online, Groups);
      groups := LoadPairs(lines);
      lines := Open(Pending);
      OpenedRead(d0, Credentials, Pending);
      OpenedRead(d1, Online, Pending);
      OpenedRead(d2, Groups, Pending);
      pending := LoadRequests(lines);
    }

    method FetchGroupMembers(g: string)
      modifies this`groupMembers
      ensures groupMembers == MembersOf(disk, g)
    {
      groupMembers := LoadColumn(Read(disk, Members(g)), 0);
    }

    method AppendLine(p: Path, r: Record)
      modifies this`disk
      ensures disk == Append(old(disk), p, r)
    {
      disk := disk[p := Read(disk, p) + [r]];
    }

    method DeleteLine(p: Path, m: Match)
      modifies this`disk
      ensures disk == Delete(old(disk), p, m)
    {
      var kept := DropLines(Read(disk, p), m);
      disk := disk[p := kept];
    }

    method Truncate(p: Path)
      modifies this`disk
      ensures disk == old(disk)[p := []]
    {
      disk := disk[p := []];
    }

    method UserLogin(h: PasswordHash, user: string, password: string, port: string, ip: string)
      returns (ok: bool, pushed: seq<Path>)
      modifies this
      ensures Outcome(Current(), Verdict(ok), pushed)
           == Step(h, old(Current()), Login(user, password, port, ip))
    {
      FetchDetails();
      pushed := [];
      if user !in credentials {
        return false, [];
      }
      var stored := credentials[user];
      if h(SaltOf(stored), password) != HashOf(stored) {
        return false, [];
      }
      if user !in online {
        online := online + {user};
        AppendLine(Online, [user, ip, port]);
        pushed := [Online];
      }
      ok := true;
    }

    method UserCreate(h: PasswordHash, user: string, password: string, port: string, ip: string, salt: string)
      returns (ok: bool, pushed: seq<Path>)
      modifies this
      ensures Outcome(Current(), Verdict(ok), pushed)
           == Step(h, old(Current()), CreateUser(user, password, port, ip, salt))
    {
      FetchDetails();
      if user in credentials {
        return false, [];
      }
      online := online + {user};
      AppendLine(Online, [user, ip, port]);
      AppendLine(Credentials, [user, salt + ":" + h(salt, password)]);
      Truncate(UserFiles(user));
      Truncate(Downloading(user));
      Truncate(Downloaded(user));
      FetchDetails();
      return true, [Online, Credentials, UserFiles(user), Downloading(user), Downloaded(user)];
    }

    method GroupCreate(h: PasswordHash, group: string, user: string) returns (ok: bool, pushed: seq<Path>)
      modifies this
      ensures Outcome(Current(), Verdict(ok), pushed) == Step(h, old(Current()), CreateGroup(group, user))
    {
      FetchDetails();
      if group in groups {
        return false, [];
      }
      AppendLine(Groups, [group, user]);
      disk := disk[Members(group) := [[user]]];
      Truncate(GroupFiles(group));
      FetchDetails();
      return true, [Groups, Members(group), GroupFiles(group)];
    }

    method GroupList(h: PasswordHash) returns (names: set<string>)
      modifies this
      ensures Outcome(Current(), Names(names), []) == Step(h, old(Current()), ListGroups)
    {
      FetchDetails();
      names := groups.Keys;
    }

    method GroupRequestList(h: PasswordHash, group: string, user: string) returns (names: set<string>)
      modifies this
      ensures Outcome(Current(), Names(names), []) == Step(h, old(Current()), ListRequests(group, user))
    {
      FetchDetails();
      if group !in groups || user != groups[group] {
        return {};
      }
      names := set p | p in pending && p.1 == group :: p.0;
    }

    method GroupFileList(h: PasswordHash, group: string) returns (names: set<string>)
      modifies this
      ensures Outcome(Current(), Names(names), []) == Step(h, old(Current()), ListFiles(group))
    {
      FetchDetails();
      if group !in groups {
        return {};
      }
      names := LoadColumn(Read(disk, GroupFiles(group)), 3);
    }

    method GroupJoin(h: PasswordHash, group: string, user: string) returns (ok: bool, pushed: seq<Path>)
      modifies this
      ensures Outcome(Current(), Verdict(ok), pushed) == Step(h, old(Current()), JoinGroup(group, user))
    {
      if group !in groups {
        return false, [];
      }
      FetchGroupMembers(group);
      if user in groupMembers {
        return true, [];
      }
      var owner := groups[group];
      if owner !in online {
        if (user, group) !in pending {
          AppendLine(Pending, [user, group]);
          pending := pending + {(user, group)};
        }
      } else {
        addresses := Touch(addresses, owner);
        AppendLine(Pending, [user, group]);
        pending := pending + {(user, group)};
      }
      return true, [Pending];
    }

    method GroupAcceptRequest(h: PasswordHash, group: string, user: string, owner: string)
      returns (ok: bool, pushed: seq<Path>)
      modifies this
      ensures Outcome(Current(), Verdict(ok), pushed) == Step(h, old(Current()), AcceptRequest(group, user, owner))
    {
      if group !in groups || groups[group] != owner || user !in credentials || (user, group) !in pending {
        return false, [];
      }
      FetchGroupMembers(group);
      if user in groupMembers {
        return true, [];
      }
      AppendLine(Members(group), [user]);
      DeleteLine(Pending, Whole([user, group]));
      return true, [Pending, Members(group)];
    }

    method GroupFileUpload(h: PasswordHash, hash: string, size: string, group: string, user: string, name: string,
                           path: string) returns (ok: bool, pushed: seq<Path>)
      modifies this
      ensures Outcome(Current(), Verdict(ok), pushed)
           == Step(h, old(Current()), Upload(hash, size, group, user, name, path))
    {
      if group !in groups {
        return false, [];
      }
      FetchGroupMembers(group);
      if user !in groupMembers {
        return false, [];
      }
      var files := Read(disk, GroupFiles(group));
      var already := ScanFor(files, ByFields(0, hash, 2, user));
      if already {
        return true, [];
      }
      var listed := name;
      var known := ScanFirst(files, ByField(0, hash));
      if Field(known, 3) != "" {
        listed := Field(known, 3);
      }
      var taken := CheckIntegrity(files, hash, listed);
      if taken {
        return false, [];
      }
      AppendLine(GroupFiles(group), [hash, size, user, listed]);
      AppendLine(UserFiles(user), [group, listed, path]);
      return true, [GroupFiles(group), UserFiles(user)];
    }

    method GroupStopShare(h: PasswordHash, group: string, name: string, user: string)
      returns (ok: bool, pushed: seq<Path>)
      modifies this
      ensures Outcome(Current(), Verdict(ok), pushed) == Step(h, old(Current()), StopShare(group, name, user))
    {
      if group !in groups || user !in credentials {
        return false, [];
      }
      FetchGroupMembers(group);
      if user !in groupMembers {
        return false, [];
      }
      DeleteLine(GroupFiles(group), ByFields(3, name, 2, user));
      DeleteLine(UserFiles(user), ByFields(0, group, 1, name));
      return true, [GroupFiles(group), UserFiles(user)];
    }

    method GroupLeave(h: PasswordHash, group: string, user: string) returns (ok: bool, pushed: seq<Path>)
      modifies this
      ensures Outcome(Current(), Verdict(ok), pushed) == Step(h, old(Current()), LeaveGroup(group, user))
    {
      if group !in groups {
        return false, [];
      }
      FetchGroupMembers(group);
      if user !in groupMembers || groups[group] == user {
        return false, [];
      }
      DeleteLine(Members(group), ByField(0, user));
      DeleteLine(GroupFiles(group), ByField(2, user));
      DeleteLine(UserFiles(user), ByField(0, group));
      FetchDetails();
      return true, [Members(group), GroupFiles(group), UserFiles(user)];
    }

    method SendSHA(h: PasswordHash, group: string, name: string, user: string) returns (hash: string, pushed: seq<Path>)
      modifies this
      ensures Outcome(Current(), Value(hash), pushed) == Step(h, old(Current()), GiveSha(group, name, user))
    {
      FetchDetails();
      if group !in groups {
        return "", [];
      }
      FetchGroupMembers(group);
      if user !in groupMembers {
        return "", [];
      }
      var first := ScanFirst(Read(disk, GroupFiles(group)), ByField(3, name));
      AppendLine(Downloading(user), [group, name]);
      return Field(first, 0), [Downloading(user)];
    }

    method SendSeeders(h: PasswordHash, group: string, name: string) returns (who: set<string>, size: string)
      modifies this
      ensures Outcome(Current(), Seeders(who, size), []) == Step(h, old(Current()), GiveSeeders(group, name))
    {
      FetchDetails();
      who, size := ScanSeeders(Read(disk, GroupFiles(group)), name, online);
      if who == {} {
        size := "";
      }
    }

    method SendDetails(h: PasswordHash, user: string) returns (ip: string, port: string)
      modifies this
      ensures Outcome(Current(), Address(ip, port), []) == Step(h, old(Current()), GiveDetails(user))
    {
      FetchDetails();
      addresses := Touch(addresses, user);
      ip, port := addresses[user].0, addresses[user].1;
    }

    method GetFullPath(h: PasswordHash, user: string, group: string, name: string) returns (path: string)
      ensures Outcome(Current(), Value(path), []) == Step(h, Current(), SendFullPath(user, group, name))
    {
      var first := ScanFirst(Read(disk, UserFiles(user)), ByFields(0, group, 1, name));
      path := Field(first, 2);
    }

    method UpdateDownload(h: PasswordHash, group: string, name: string, path: string, user: string)
      returns (pushed: seq<Path>)
      modifies this
      ensures Outcome(Current(), Silence, pushed) == Step(h, old(Current()), AddFile(group, name, path, user))
    {
      FetchDetails();
      var first := ScanFirst(Read(disk, GroupFiles(group)), ByField(3, name));
      var already := ScanFor(Read(disk, UserFiles(user)), ByField(1, name));
      if already {
        return [];
      }
      ShareOrder(disk, Field(first, 0), Field(first, 1), group, user, name, path);
      AppendLine(UserFiles(user), [group, name, path]);
      AppendLine(GroupFiles(group), [Field(first, 0), Field(first, 1), user, name]);
      return [GroupFiles(group), UserFiles(user)];
    }

    method CompleteDownload(h: PasswordHash, group: string, name: string, user: string) returns (pushed: seq<Path>)
      modifies this
      ensures Outcome(Current(), Silence, pushed) == Step(h, old(Current()), Complete(group, name, user))
    {
      FetchDetails();
      DeleteLine(Downloading(user), Whole([group, name]));
      AppendLine(Downloaded(user), [group, name]);
      return [Downloaded(user), Downloading(user)];
    }

    method ShowUserDownloads(h: PasswordHash, user: string) returns (downloading: File, downloaded: File)
      modifies this
      ensures Outcome(Current(), Ledger(downloading, downloaded), []) == Step(h, old(Current()), ShowDownloads(user))
    {
      FetchDetails();
      downloading, downloaded := Read(disk, Downloading(user)), Read(disk, Downloaded(user));
    }

    method UserLogout(h: PasswordHash, user: string) returns (ok: bool, pushed: seq<Path>)
      modifies this
      ensures Outcome(Current(), Verdict(ok), pushed) == Step(h, old(Current()), Logout(user))
    {
      FetchDetails();
      if user !in online {
        return false, [];
      }
      DeleteLine(Online, ByField(0, user));
      FetchDetails();
      return true, [Online];
    }
  }
}
