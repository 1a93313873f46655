/**
  What each tracker command does, as a function of one tracker's state: the disk, the caches loaded
  from it, the reply, and the files pushed to the sibling afterwards.
 */
module Handlers {
  import opened Text
  import opened Store

  /** In-memory copies of four files. Only some handlers refresh them before use. */
  datatype Cache = Cache(
    credentials: map<string, string>,
    online: set<string>,
    addresses: map<string, (string, string)>,
    groups: map<string, string>,
    pending: set<(string, string)>)

  datatype State = State(disk: Disk, cache: Cache)

  /** Salted password hashing: only equality of stored and recomputed values matters. */
  type PasswordHash = (string, string) -> string

  datatype Command =
    | Login(user: string, password: string, port: string, ip: string)
    | CreateUser(user: string, password: string, port: string, ip: string, salt: string)
    | CreateGroup(group: string, user: string)
    | ListGroups
    | ListRequests(group: string, user: string)
    | ListFiles(group: string)
    | JoinGroup(group: string, user: string)
    | AcceptRequest(group: string, user: string, owner: string)
    | Upload(hash: string, size: string, group: string, user: string, name: string, path: string)
    | StopShare(group: string, name: string, user: string)
    | LeaveGroup(group: string, user: string)
    | GiveSha(group: string, name: string, user: string)
    | GiveSeeders(group: string, name: string)
    | GiveDetails(user: string)
    | SendFullPath(user: string, group: string, name: string)
    | AddFile(group: string, name: string, path: string, user: string)
    | Complete(group: string, name: string, user: string)
    | ShowDownloads(user: string)
    | Logout(user: string)

  datatype Reply =
    | Verdict(ok: bool)
    | Names(names: set<string>)
    | Value(text: string)
    | Seeders(who: set<string>, size: string)
    | Address(ip: string, port: string)
    | Ledger(downloading: File, downloaded: File)
    | Silence

  datatype Outcome = Outcome(state: State, reply: Reply, pushed: seq<Path>)

  /******* Loading the caches *******/

  /** The set of values in column `i`. */
  function Column(s: File, i: nat): set<string> {
    set r | r in s :: Field(r, i)
  }

  /** Field 0 to field 1, later lines overriding earlier ones. */
  function PairMap(s: File): map<string, string> {
    if s == [] then map[]
    else PairMap(s[..|s| - 1])[Field(s[|s| - 1], 0) := Field(s[|s| - 1], 1)]
  }

  function AddressMap(s: File): map<string, (string, string)> {
    if s == [] then map[]
    else
      var last := s[|s| - 1];
      AddressMap(s[..|s| - 1])[Field(last, 0) := (Field(last, 1), Field(last, 2))]
  }

  function PairSet(s: File): set<(string, string)> {
    set r | r in s :: (Field(r, 0), Field(r, 1))
  }

  function Load(d: Disk): Cache {
    Cache(PairMap(Read(d, Credentials)), Column(Read(d, Online), 0), AddressMap(Read(d, Online)),
          PairMap(Read(d, Groups)), PairSet(Read(d, Pending)))
  }

  const BASE: set<Path> := {Credentials, Online, Groups, Pending}

  /** The disk after opening a file that is created when missing. */
  function Opened(d: Disk, p: Path): Disk {
    if p in d then d else d[p := []]
  }

  lemma OpenedRead(d: Disk, p: Path, q: Path)
    ensures Read(Opened(d, p), q) == Read(d, q)
  {
  }

  /** Loading creates the four base files that are missing. */
  function WithBase(d: Disk): Disk {
    Opened(Opened(Opened(Opened(d, Credentials), Online), Groups), Pending)
  }

  function Refresh(d: Disk): State {
    State(WithBase(d), Load(d))
  }

  function MembersOf(d: Disk, g: string): set<string> {
    Column(Read(d, Members(g)), 0)
  }

  /******* Searching *******/

  /** The first matching line, or an empty record. */
  function FindFirst(s: File, m: Match): (r: Record)
    ensures r != [] ==> r in s && Matches(m, r)
    ensures (forall q :: q in s ==> !Matches(m, q)) ==> r == []
    ensures (exists q :: q in s && Matches(m, q)) ==> r in s && Matches(m, r)
  {
    if s == [] then [] else if Matches(m, s[0]) then s[0] else FindFirst(s[1..], m)
  }

  /** The last matching line, or an empty record. */
  function FindLast(s: File, m: Match): Record {
    if s == [] then []
    else if Matches(m, s[|s| - 1]) then s[|s| - 1] else FindLast(s[..|s| - 1], m)
  }

  predicate Found(s: File, m: Match) {
    exists i :: 0 <= i < |s| && Matches(m, s[i])
  }

  /** `CheckIntegrity`: the name is taken by a file with another hash. */
  predicate NameTaken(s: File, hash: string, name: string) {
    exists i :: 0 <= i < |s| && Field(s[i], 0) != hash && Field(s[i], 3) == name
  }

  /** Users listed for the file who are online. */
  function OnlineSharers(s: File, name: string, online: set<string>): (who: set<string>)
    ensures forall u :: u in who <==> u in online && exists r :: r in s && Field(r, 3) == name && Field(r, 2) == u
  {
    if s == [] then {}
    else
      var init, last := s[..|s| - 1], s[|s| - 1];
      assert s == init + [last];
      OnlineSharers(init, name, online)
      + if Field(last, 3) == name && Field(last, 2) in online then {Field(last, 2)} else {}
  }

  /** The position of the first ':' of a stored credential, or -1. */
  function Colon(s: string): int {
    if s == "" then -1
    else if s[0] == ':' then 0
    else if Colon(s[1..]) == -1 then -1 else Colon(s[1..]) + 1
  }

  lemma {:induction false} ColonBounds(s: string)
    ensures -1 <= Colon(s) < |s|
  {
    if s != "" {
      ColonBounds(s[1..]);
    }
  }

  function SaltOf(stored: string): string {
    ColonBounds(stored);
    if Colon(stored) == -1 then stored else stored[..Colon(stored)]
  }

  function HashOf(stored: string): string {
    ColonBounds(stored);
    if Colon(stored) == -1 then stored else stored[Colon(stored) + 1..]
  }

  /******* Handlers *******/

  function DoLogin(h: PasswordHash, d: Disk, u: string, pw: string, port: string, ip: string): Outcome {
    var r := Refresh(d);
    if u !in r.cache.credentials then Outcome(r, Verdict(false), [])
    else
      var stored := r.cache.credentials[u];
      if h(SaltOf(stored), pw) != HashOf(stored) then Outcome(r, Verdict(false), [])
      else if u in r.cache.online then Outcome(r, Verdict(true), [])
      else Outcome(State(Append(r.disk, Online, [u, ip, port]), r.cache.(online := r.cache.online + {u})),
                   Verdict(true), [Online])
  }

  function NewUser(h: PasswordHash, d: Disk, u: string, pw: string, port: string, ip: string, salt: string): Disk {
    var d1 := Append(d, Online, [u, ip, port]);
    var d2 := Append(d1, Credentials, [u, salt + ":" + h(salt, pw)]);
    d2[UserFiles(u) := []][Downloading(u) := []][Downloaded(u) := []]
  }

  function DoCreateUser(h: PasswordHash, d: Disk, u: string, pw: string, port: string, ip: string, salt: string): Outcome {
    var r := Refresh(d);
    if u in r.cache.credentials then Outcome(r, Verdict(false), [])
    else
      Outcome(Refresh(NewUser(h, r.disk, u, pw, port, ip, salt)), Verdict(true),
              [Online, Credentials, UserFiles(u), Downloading(u), Downloaded(u)])
  }

  function NewGroup(d: Disk, g: string, u: string): Disk {
    Append(d, Groups, [g, u])[Members(g) := [[u]]][GroupFiles(g) := []]
  }

  function DoCreateGroup(d: Disk, g: string, u: string): Outcome {
    var r := Refresh(d);
    if g in r.cache.groups then Outcome(r, Verdict(false), [])
    else Outcome(Refresh(NewGroup(r.disk, g, u)), Verdict(true), [Groups, Members(g), GroupFiles(g)])
  }

  function DoListRequests(d: Disk, g: string, u: string): Outcome {
    var r := Refresh(d);
    Outcome(r, Names(if g !in r.cache.groups || u != r.cache.groups[g] then {}
                     else set p | p in r.cache.pending && p.1 == g :: p.0), [])
  }

  function DoListFiles(d: Disk, g: string): Outcome {
    var r := Refresh(d);
    Outcome(r, Names(if g !in r.cache.groups then {} else Column(Read(r.disk, GroupFiles(g)), 3)), [])
  }

  /** `operator[]` on a map: a missing key is inserted with the default value. */
  function Touch(m: map<string, (string, string)>, k: string): map<string, (string, string)> {
    if k in m then m else m[k := ("", "")]
  }

  function DoJoin(s: State, g: string, u: string): Outcome {
    var c := s.cache;
    if g !in c.groups then Outcome(s, Verdict(false), [])
    else if u in MembersOf(s.disk, g) then Outcome(s, Verdict(true), [])
    else if c.groups[g] !in c.online && (u, g) in c.pending then Outcome(s, Verdict(true), [Pending])
    else
      var addresses := if c.groups[g] in c.online then Touch(c.addresses, c.groups[g]) else c.addresses;
      Outcome(State(Append(s.disk, Pending, [u, g]), c.(pending := c.pending + {(u, g)}, addresses := addresses)),
              Verdict(true), [Pending])
  }

  function Admit(d: Disk, g: string, u: string): Disk {
    Delete(Append(d, Members(g), [u]), Pending, Whole([u, g]))
  }

  function DoAccept(s: State, g: string, u: string, owner: string): Outcome {
    var c := s.cache;
    if g !in c.groups || c.groups[g] != owner || u !in c.credentials || (u, g) !in c.pending then
      Outcome(s, Verdict(false), [])
    else if u in MembersOf(s.disk, g) then Outcome(s, Verdict(true), [])
    else Outcome(s.(disk := Admit(s.disk, g, u)), Verdict(true), [Pending, Members(g)])
  }

  function Share(d: Disk, hash: string, size: string, g: string, u: string, name: string, path: string): Disk {
    Append(Append(d, GroupFiles(g), [hash, size, u, name]), UserFiles(u), [g, name, path])
  }

  /** The two lists may be written in either order. */
  lemma ShareOrder(d: Disk, hash: string, size: string, g: string, u: string, name: string, path: string)
    ensures Append(Append(d, UserFiles(u), [g, name, path]), GroupFiles(g), [hash, size, u, name])
         == Share(d, hash, size, g, u, name, path)
  {
  }

  /** The name under which the upload is listed: the one its hash already has in the group, if any. */
  function ListedName(s: File, hash: string, name: string): string {
    var known := Field(FindFirst(s, ByField(0, hash)), 3);
    if known != "" then known else name
  }

  function DoUpload(s: State, hash: string, size: string, g: string, u: string, name: string, path: string): Outcome {
    var files := Read(s.disk, GroupFiles(g));
    if g !in s.cache.groups || u !in MembersOf(s.disk, g) then Outcome(s, Verdict(false), [])
    else if Found(files, ByFields(0, hash, 2, u)) then Outcome(s, Verdict(true), [])
    else
      var listed := ListedName(files, hash, name);
      if NameTaken(files, hash, listed) then Outcome(s, Verdict(false), [])
      else Outcome(s.(disk := Share(s.disk, hash, size, g, u, listed, path)), Verdict(true),
                   [GroupFiles(g), UserFiles(u)])
  }

  function Unshare(d: Disk, g: string, name: string, u: string): Disk {
    Delete(Delete(d, GroupFiles(g), ByFields(3, name, 2, u)), UserFiles(u), ByFields(0, g, 1, name))
  }

  function DoStopShare(s: State, g: string, name: string, u: string): Outcome {
    if g !in s.cache.groups || u !in s.cache.credentials || u !in MembersOf(s.disk, g) then
      Outcome(s, Verdict(false), [])
    else Outcome(s.(disk := Unshare(s.disk, g, name, u)), Verdict(true), [GroupFiles(g), UserFiles(u)])
  }

  function Depart(d: Disk, g: string, u: string): Disk {
    Delete(Delete(Delete(d, Members(g), ByField(0, u)), GroupFiles(g), ByField(2, u)), UserFiles(u), ByField(0, g))
  }

  function DoLeave(s: State, g: string, u: string): Outcome {
    if g !in s.cache.groups || u !in MembersOf(s.disk, g) || s.cache.groups[g] == u then
      Outcome(s, Verdict(false), [])
    else Outcome(Refresh(Depart(s.disk, g, u)), Verdict(true), [Members(g), GroupFiles(g), UserFiles(u)])
  }

  function DoGiveSha(d: Disk, g: string, name: string, u: string): Outcome {
    var r := Refresh(d);
    if g !in r.cache.groups || u !in MembersOf(r.disk, g) then Outcome(r, Value(""), [])
    else Outcome(r.(disk := Append(r.disk, Downloading(u), [g, name])),
                 Value(Field(FindFirst(Read(r.disk, GroupFiles(g)), ByField(3, name)), 0)), [Downloading(u)])
  }

  function DoGiveSeeders(d: Disk, g: string, name: string): Outcome {
    var r := Refresh(d);
    var files := Read(r.disk, GroupFiles(g));
    var who := OnlineSharers(files, name, r.cache.online);
    Outcome(r, Seeders(who, if who == {} then "" else Field(FindLast(files, ByField(3, name)), 1)), [])
  }

  function DoGiveDetails(d: Disk, u: string): Outcome {
    var r := Refresh(d);
    var addresses := Touch(r.cache.addresses, u);
    Outcome(r.(cache := r.cache.(addresses := addresses)), Address(addresses[u].0, addresses[u].1), [])
  }

  function DoSendFullPath(s: State, u: string, g: string, name: string): Outcome {
    Outcome(s, Value(Field(FindFirst(Read(s.disk, UserFiles(u)), ByFields(0, g, 1, name)), 2)), [])
  }

  function DoAddFile(d: Disk, g: string, name: string, path: string, u: string): Outcome {
    var r := Refresh(d);
    var listed := FindFirst(Read(r.disk, GroupFiles(g)), ByField(3, name));
    if Found(Read(r.disk, UserFiles(u)), ByField(1, name)) then Outcome(r, Silence, [])
    else Outcome(r.(disk := Share(r.disk, Field(listed, 0), Field(listed, 1), g, u, name, path)), Silence,
                 [GroupFiles(g), UserFiles(u)])
  }

  function Finish(d: Disk, g: string, name: string, u: string): Disk {
    Append(Delete(d, Downloading(u), Whole([g, name])), Downloaded(u), [g, name])
  }

  function DoComplete(d: Disk, g: string, name: string, u: string): Outcome {
    var r := Refresh(d);
    Outcome(r.(disk := Finish(r.disk, g, name, u)), Silence, [Downloaded(u), Downloading(u)])
  }

  function DoShowDownloads(d: Disk, u: string): Outcome {
    var r := Refresh(d);
    Outcome(r, Ledger(Read(r.disk, Downloading(u)), Read(r.disk, Downloaded(u))), [])
  }

  function DoLogout(d: Disk, u: string): Outcome {
    var r := Refresh(d);
    if u !in r.cache.online then Outcome(r, Verdict(false), [])
    else Outcome(Refresh(Delete(r.disk, Online, ByField(0, u))), Verdict(true), [Online])
  }

  /** One command at one tracker. */
  function Step(h: PasswordHash, s: State, c: Command): Outcome {
    match c
    case Login(u, pw, port, ip) => DoLogin(h, s.disk, u, pw, port, ip)
    case CreateUser(u, pw, port, ip, salt) => DoCreateUser(h, s.disk, u, pw, port, ip, salt)
    case CreateGroup(g, u) => DoCreateGroup(s.disk, g, u)
    case ListGroups => Outcome(Refresh(s.disk), Names(Refresh(s.disk).cache.groups.Keys), [])
    case ListRequests(g, u) => DoListRequests(s.disk, g, u)
    case ListFiles(g) => DoListFiles(s.disk, g)
    case JoinGroup(g, u) => DoJoin(s, g, u)
    case AcceptRequest(g, u, owner) => DoAccept(s, g, u, owner)
    case Upload(hash, size, g, u, name, path) => DoUpload(s, hash, size, g, u, name, path)
    case StopShare(g, name, u) => DoStopShare(s, g, name, u)
    case LeaveGroup(g, u) => DoLeave(s, g, u)
    case GiveSha(g, name, u) => DoGiveSha(s.disk, g, name, u)
    case GiveSeeders(g, name) => DoGiveSeeders(s.disk, g, name)
    case GiveDetails(u) => DoGiveDetails(s.disk, u)
    case SendFullPath(u, g, name) => DoSendFullPath(s, u, g, name)
    case AddFile(g, name, path, u) => DoAddFile(s.disk, g, name, path, u)
    case Complete(g, name, u) => DoComplete(s.disk, g, name, u)
    case ShowDownloads(u) => DoShowDownloads(s.disk, u)
    case Logout(u) => DoLogout(s.disk, u)
  }
}
