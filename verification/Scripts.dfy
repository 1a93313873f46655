/** Each command as a script of edits, applied to the records of the disk or to the bytes behind it. */
module Scripts {
  import opened Text
  import opened Store
  import opened Handlers
  import opened Commands
  import opened Names
  import opened Directory

  /******* Commands as edits *******/

  /** A join that is written down: not when the owner is offline and the request already known. */
  predicate Writes(s: State, c: Command) {
    c.JoinGroup? && c.group in s.cache.groups ==>
      s.cache.groups[c.group] in s.cache.online || (c.user, c.group) !in s.cache.pending
  }

  /** The edits of a command that goes through, in the order of the code. */
  function Script(h: PasswordHash, d: Disk, c: Command): seq<Edit> {
    match c
    case Login(u, _, port, ip) => [AddLine(Online, [u, ip, port])]
    case CreateUser(u, pw, port, ip, salt) =>
      [AddLine(Online, [u, ip, port]), AddLine(Credentials, [u, salt + ":" + h(salt, pw)]),
       Rewrite(UserFiles(u), []), Rewrite(Downloading(u), []), Rewrite(Downloaded(u), [])]
    case CreateGroup(g, u) => [AddLine(Groups, [g, u]), Rewrite(Members(g), [[u]]), Rewrite(GroupFiles(g), [])]
    case JoinGroup(g, u) => [AddLine(Pending, [u, g])]
    case AcceptRequest(g, u, _) => [AddLine(Members(g), [u]), DropMatching(Pending, Whole([u, g]))]
    case Upload(hash, size, g, u, name, path) =>
      var listed := ListedName(Read(d, GroupFiles(g)), hash, name);
      [AddLine(GroupFiles(g), [hash, size, u, listed]), AddLine(UserFiles(u), [g, listed, path])]
    case StopShare(g, name, u) =>
      [DropMatching(GroupFiles(g), ByFields(3, name, 2, u)), DropMatching(UserFiles(u), ByFields(0, g, 1, name))]
    case LeaveGroup(g, u) =>
      [DropMatching(Members(g), ByField(0, u)), DropMatching(GroupFiles(g), ByField(2, u)),
       DropMatching(UserFiles(u), ByField(0, g))]
    case GiveSha(g, name, u) => [AddLine(Downloading(u), [g, name])]
    case AddFile(g, name, path, u) =>
      var first := FindFirst(Read(d, GroupFiles(g)), ByField(3, name));
      [AddLine(UserFiles(u), [g, name, path]), AddLine(GroupFiles(g), [Field(first, 0), Field(first, 1), u, name])]
    case Complete(g, name, u) =>
      [DropMatching(Downloading(u), Whole([g, name])), AddLine(Downloaded(u), [g, name])]
    case Logout(u) => [DropMatching(Online, ByField(0, u))]
    case _ => []
  }

  /** The edits of a command: a command that pushes nothing changes nothing. */
  function Edits(h: PasswordHash, s: State, c: Command): seq<Edit> {
    if Step(h, s, c).pushed != [] && Writes(s, c) then Script(h, s.disk, c) else []
  }

  lemma {:induction false} Unroll(d: Disk, e: Edit, es: seq<Edit>)
    ensures AllOnDisk(d, [e] + es) == AllOnDisk(OnDisk(d, e), es)
    ensures AllOnDisk(d, [e]) == OnDisk(d, e)
  {
    assert ([e] + es)[1..] == es && [e][1..] == [];
  }

  lemma {:induction false} Two(d: Disk, a: Edit, b: Edit)
    ensures AllOnDisk(d, [a, b]) == OnDisk(OnDisk(d, a), b)
  {
    assert [a, b] == [a] + [b];
    Unroll(d, a, [b]);
    Unroll(OnDisk(d, a), b, []);
  }

  lemma {:induction false} Three(d: Disk, a: Edit, b: Edit, c: Edit)
    ensures AllOnDisk(d, [a, b, c]) == OnDisk(OnDisk(OnDisk(d, a), b), c)
  {
    assert [a, b, c] == [a] + [b, c];
    Unroll(d, a, [b, c]);
    Two(OnDisk(d, a), b, c);
  }

  lemma {:induction false} Five(d: Disk, a: Edit, b: Edit, c: Edit, e: Edit, f: Edit)
    ensures AllOnDisk(d, [a, b, c, e, f]) == OnDisk(OnDisk(OnDisk(OnDisk(OnDisk(d, a), b), c), e), f)
  {
    assert [a, b, c, e, f] == [a] + [b, c, e, f];
    assert [b, c, e, f] == [b] + [c, e, f];
    Unroll(d, a, [b, c, e, f]);
    Unroll(OnDisk(d, a), b, [c, e, f]);
    Three(OnDisk(OnDisk(d, a), b), c, e, f);
  }

  lemma SignUpIsEdits(h: PasswordHash, s: State, c: Command)
    requires BASE <= s.disk.Keys && c.CreateUser?
    ensures Step(h, s, c).state.disk == AllOnDisk(s.disk, Edits(h, s, c))
  {
    var d, u := s.disk, c.user;
    WithBaseSame(d);
    WithBaseSame(NewUser(h, d, u, c.password, c.port, c.ip, c.salt));
    Five(d, AddLine(Online, [u, c.ip, c.port]), AddLine(Credentials, [u, c.salt + ":" + h(c.salt, c.password)]),
         Rewrite(UserFiles(u), []), Rewrite(Downloading(u), []), Rewrite(Downloaded(u), []));
  }

  lemma AccountsAreEdits(h: PasswordHash, s: State, c: Command)
    requires BASE <= s.disk.Keys && (c.Login? || c.CreateGroup? || c.Logout?)
    ensures Step(h, s, c).state.disk == AllOnDisk(s.disk, Edits(h, s, c))
  {
    var d := s.disk;
    WithBaseSame(d);
    match c
    case Login(u, _, port, ip) => Unroll(d, AddLine(Online, [u, ip, port]), []);
    case CreateGroup(g, u) =>
      WithBaseSame(NewGroup(d, g, u));
      Three(d, AddLine(Groups, [g, u]), Rewrite(Members(g), [[u]]), Rewrite(GroupFiles(g), []));
    case Logout(u) =>
      WithBaseSame(Delete(d, Online, ByField(0, u)));
      Unroll(d, DropMatching(Online, ByField(0, u)), []);
  }

  lemma LeaveIsEdits(h: PasswordHash, s: State, c: Command)
    requires BASE <= s.disk.Keys && c.LeaveGroup?
    ensures Step(h, s, c).state.disk == AllOnDisk(s.disk, Edits(h, s, c))
  {
    var d, g, u := s.disk, c.group, c.user;
    WithBaseSame(Depart(d, g, u));
    Three(d, DropMatching(Members(g), ByField(0, u)), DropMatching(GroupFiles(g), ByField(2, u)),
          DropMatching(UserFiles(u), ByField(0, g)));
  }

  lemma GroupsAreEdits(h: PasswordHash, s: State, c: Command)
    requires BASE <= s.disk.Keys && (c.JoinGroup? || c.AcceptRequest?)
    ensures Step(h, s, c).state.disk == AllOnDisk(s.disk, Edits(h, s, c))
  {
    var d := s.disk;
    match c
    case JoinGroup(g, u) => Unroll(d, AddLine(Pending, [u, g]), []);
    case AcceptRequest(g, u, _) => Two(d, AddLine(Members(g), [u]), DropMatching(Pending, Whole([u, g])));
  }

  lemma SharesAreEdits(h: PasswordHash, s: State, c: Command)
    requires BASE <= s.disk.Keys && (c.Upload? || c.StopShare?)
    ensures Step(h, s, c).state.disk == AllOnDisk(s.disk, Edits(h, s, c))
  {
    var d := s.disk;
    match c
    case Upload(hash, size, g, u, name, path) =>
      var listed := ListedName(Read(d, GroupFiles(g)), hash, name);
      Two(d, AddLine(GroupFiles(g), [hash, size, u, listed]), AddLine(UserFiles(u), [g, listed, path]));
    case StopShare(g, name, u) =>
      Two(d, DropMatching(GroupFiles(g), ByFields(3, name, 2, u)), DropMatching(UserFiles(u), ByFields(0, g, 1, name)));
  }

  lemma AddFileIsEdits(h: PasswordHash, s: State, c: Command)
    requires BASE <= s.disk.Keys && c.AddFile?
    ensures Step(h, s, c).state.disk == AllOnDisk(s.disk, Edits(h, s, c))
  {
    var d := s.disk;
    WithBaseSame(d);
    var first := FindFirst(Read(d, GroupFiles(c.group)), ByField(3, c.name));
    ShareOrder(d, Field(first, 0), Field(first, 1), c.group, c.user, c.name, c.path);
    Two(d, AddLine(UserFiles(c.user), [c.group, c.name, c.path]),
        AddLine(GroupFiles(c.group), [Field(first, 0), Field(first, 1), c.user, c.name]));
  }

  lemma DownloadsAreEdits(h: PasswordHash, s: State, c: Command)
    requires BASE <= s.disk.Keys && (c.GiveSha? || c.Complete?)
    ensures Step(h, s, c).state.disk == AllOnDisk(s.disk, Edits(h, s, c))
  {
    var d := s.disk;
    WithBaseSame(d);
    match c
    case GiveSha(g, name, u) => Unroll(d, AddLine(Downloading(u), [g, name]), []);
    case Complete(g, name, u) =>
      Two(d, DropMatching(Downloading(u), Whole([g, name])), AddLine(Downloaded(u), [g, name]));
  }

  /** What a command does to the disk is its edits, one after the other. */
  lemma StepIsEdits(h: PasswordHash, s: State, c: Command)
    requires BASE <= s.disk.Keys
    ensures Step(h, s, c).state.disk == AllOnDisk(s.disk, Edits(h, s, c))
  {
    if c.CreateUser? {
      SignUpIsEdits(h, s, c);
    } else if c.Login? || c.CreateGroup? || c.Logout? {
      AccountsAreEdits(h, s, c);
    } else if c.LeaveGroup? {
      LeaveIsEdits(h, s, c);
    } else if c.JoinGroup? || c.AcceptRequest? {
      GroupsAreEdits(h, s, c);
    } else if c.Upload? || c.StopShare? {
      SharesAreEdits(h, s, c);
    } else if c.AddFile? {
      AddFileIsEdits(h, s, c);
    } else if c.GiveSha? || c.Complete? {
      DownloadsAreEdits(h, s, c);
    } else {
      WithBaseSame(s.disk);
    }
  }

  /******* Proper commands write clean lines *******/

  /** Hashes of passwords are tokens, such as hexadecimal digests. */
  ghost predicate TokenHash(h: PasswordHash) {
    forall salt, pw :: Token(h(salt, pw))
  }

  lemma SecretIsToken(h: PasswordHash, salt: string, pw: string)
    requires TokenHash(h) && Token(salt)
    ensures Token(salt + ":" + h(salt, pw)) && salt + ":" + h(salt, pw) != ""
  {
  }

  lemma {:induction false} FieldIsToken(d: Disk, p: Path, m: Match, i: nat)
    requires Tidy(d)
    ensures Token(Field(FindFirst(Read(d, p), m), i))
  {
    var r := FindFirst(Read(d, p), m);
    if i < |r| {
      assert r in d[p];
      assert CleanLine(p, r);
    }
  }

  lemma ListedNameIsToken(d: Disk, g: string, hash: string, name: string)
    requires Tidy(d) && Token(name)
    ensures Token(ListedName(Read(d, GroupFiles(g)), hash, name))
  {
    FieldIsToken(d, GroupFiles(g), ByField(0, hash), 3);
  }

  lemma AccountScriptClean(h: PasswordHash, d: Disk, c: Command)
    requires Tidy(d) && Proper(c) && TokenHash(h) && (c.Login? || c.CreateUser? || c.CreateGroup? || c.Logout?)
    ensures forall e :: e in Script(h, d, c) ==> CleanEdit(e)
  {
    if c.CreateUser? {
      SecretIsToken(h, c.salt, c.password);
    }
  }

  lemma GroupScriptClean(h: PasswordHash, d: Disk, c: Command)
    requires Tidy(d) && Proper(c) && (c.JoinGroup? || c.AcceptRequest? || c.LeaveGroup?)
    ensures forall e :: e in Script(h, d, c) ==> CleanEdit(e)
  {
    if c.AcceptRequest? {
      PairIsClean(c.user, c.group);
    }
  }

  lemma PairIsClean(a: string, b: string)
    requires Token(a) && Token(b)
    ensures CleanMatch(Whole([a, b]))
  {
    var r := [a, b];
    assert forall i :: 0 <= i < |r| ==> Token(r[i]);
  }

  lemma ShareScriptClean(h: PasswordHash, d: Disk, c: Command)
    requires Tidy(d) && Proper(c) && (c.Upload? || c.StopShare?)
    ensures forall e :: e in Script(h, d, c) ==> CleanEdit(e)
  {
    if c.Upload? {
      ListedNameIsToken(d, c.group, c.hash, c.name);
    }
  }

  lemma DownloadScriptClean(h: PasswordHash, d: Disk, c: Command)
    requires Tidy(d) && Proper(c) && (c.GiveSha? || c.AddFile? || c.Complete?)
    ensures forall e :: e in Script(h, d, c) ==> CleanEdit(e)
  {
    if c.AddFile? {
      FieldIsToken(d, GroupFiles(c.group), ByField(3, c.name), 0);
      FieldIsToken(d, GroupFiles(c.group), ByField(3, c.name), 1);
    } else if c.Complete? {
      PairIsClean(c.group, c.name);
    }
  }

  lemma ScriptClean(h: PasswordHash, d: Disk, c: Command)
    requires Tidy(d) && Proper(c) && TokenHash(h)
    ensures forall e :: e in Script(h, d, c) ==> CleanEdit(e)
  {
    if c.Login? || c.CreateUser? || c.CreateGroup? || c.Logout? {
      AccountScriptClean(h, d, c);
    } else if c.JoinGroup? || c.AcceptRequest? || c.LeaveGroup? {
      GroupScriptClean(h, d, c);
    } else if c.Upload? || c.StopShare? {
      ShareScriptClean(h, d, c);
    } else if c.GiveSha? || c.AddFile? || c.Complete? {
      DownloadScriptClean(h, d, c);
    }
  }

  /**
    A proper command keeps the disk tidy, and the directory behind it changes by exactly the code's appends,
    rewrites and truncations of named files.
   */
  lemma StepOnBytes(h: PasswordHash, s: State, c: Command)
    requires BASE <= s.disk.Keys && Tidy(s.disk) && Proper(c) && TokenHash(h)
    ensures var d' := Step(h, s, c).state.disk;
            && Tidy(d') && DistinctNames(s.disk) && DistinctNames(d')
            && DirOf(d') == AllOnBytes(DirOf(s.disk), Edits(h, s, c))
  {
    StepIsEdits(h, s, c);
    ScriptClean(h, s.disk, c);
    EditsCommute(s.disk, Edits(h, s, c));
  }
}
