/**
  The directory behind a disk: file names and bytes. As long as no two files share a name, every change a
  command makes to the records is the change the code makes to the bytes.
 */
module Directory {
  import opened Text
  import opened Store
  import opened Names

  /******* File names *******/

  ghost predicate DistinctNames(d: Disk) {
    forall p, q :: p in d && q in d && FileName(p) == FileName(q) ==> p == q
  }

  /** The files of a disk have different names exactly when no two of them clash. */
  lemma DistinctExactly(d: Disk)
    ensures DistinctNames(d) <==> forall p, q :: p in d && q in d ==> !Clash(p, q)
  {
    forall p, q | p != q ensures FileName(p) == FileName(q) <==> Clash(p, q) || Clash(q, p) {
      FileNamesClashExactly(p, q);
    }
  }

  /** A file of a properly named group or user. */
  ghost predicate PlainPath(p: Path) {
    match p
    case Members(g) => GroupName(g)
    case GroupFiles(g) => GroupName(g)
    case UserFiles(u) => UserName(u)
    case Downloading(u) => UserName(u)
    case Downloaded(u) => UserName(u)
    case _ => true
  }

  lemma TaggedEndsWith(s: string, tag: string)
    ensures EndsWith(s + tag, tag)
  {
  }

  lemma PlainNoClash(p: Path, q: Path)
    requires PlainPath(p)
    ensures !Clash(p, q)
  {
    match q
    case GroupFiles(g) => TaggedEndsWith(g, "_files");
    case Downloading(u) => TaggedEndsWith(u, "_downloading");
    case Downloaded(u) => TaggedEndsWith(u, "_downloaded");
    case _ =>
  }

  lemma PlainPathsDiffer(p: Path, q: Path)
    requires PlainPath(p) && PlainPath(q) && p != q
    ensures FileName(p) != FileName(q)
  {
    FileNamesClashExactly(p, q);
    PlainNoClash(p, q);
    PlainNoClash(q, p);
  }

  /******* Tidy disks *******/

  /** A line of tokens; those read word by word have no empty field. */
  ghost predicate CleanLine(p: Path, r: Record) {
    && |r| >= 1
    && forall i :: 0 <= i < |r| ==> Token(r[i]) && (p == Credentials || p == Pending ==> r[i] != "")
  }

  ghost predicate CleanFile(p: Path, s: File) {
    forall r :: r in s ==> CleanLine(p, r)
  }

  /** Proper names throughout, and lines of tokens. */
  ghost predicate Tidy(d: Disk) {
    forall p :: p in d ==> PlainPath(p) && CleanFile(p, d[p])
  }

  lemma TidyNames(d: Disk)
    requires Tidy(d)
    ensures DistinctNames(d)
  {
    forall p, q | p in d && q in d && p != q ensures FileName(p) != FileName(q) {
      PlainPathsDiffer(p, q);
    }
  }

  lemma CleanFileIsClean(p: Path, s: File)
    requires CleanFile(p, s)
    ensures Clean(s)
  {
    forall i | 0 <= i < |s| ensures |s[i]| >= 1 && Free(s[i], ' ') && Free(s[i], '\n') {
      assert s[i] in s;
    }
  }

  lemma TidyUpdate(d: Disk, p: Path, s: File)
    requires Tidy(d) && PlainPath(p) && CleanFile(p, s)
    ensures Tidy(d[p := s])
  {
  }

  /******* Bytes *******/

  type Directory = map<string, string>

  /** Some file of the disk has this name. */
  ghost predicate HasName(d: Disk, name: string) {
    exists p :: p in d && FileName(p) == name
  }

  /** The directory has the bytes of the file under its name. */
  ghost predicate HasBytes(dir: Directory, d: Disk, p: Path)
    requires p in d
  {
    FileName(p) in dir && dir[FileName(p)] == Render(d[p])
  }

  /** The directory has the bytes of each file under its name, and nothing else. */
  ghost predicate Holds(dir: Directory, d: Disk) {
    && (forall p :: p in d ==> HasBytes(dir, d, p))
    && (forall name :: name in dir ==> HasName(d, name))
  }

  lemma DistinctRest(d: Disk, p: Path)
    requires DistinctNames(d) && p in d
    ensures DistinctNames(d - {p}) && forall q :: q in d - {p} ==> FileName(q) != FileName(p)
  {
  }

  lemma HasNameMore(d: Disk, p: Path, name: string)
    requires p in d && (name == FileName(p) || HasName(d - {p}, name))
    ensures HasName(d, name)
  {
    if name != FileName(p) {
      var q :| q in d - {p} && FileName(q) == name;
      assert q in d;
    }
  }

  lemma HasBytesStill(dir: Directory, d: Disk, p: Path, q: Path)
    requires q in d && p in d && q != p && FileName(q) != FileName(p) && HasBytes(dir, d - {p}, q)
    ensures HasBytes(dir[FileName(p) := Render(d[p])], d, q)
  {
    assert (d - {p})[q] == d[q];
  }

  lemma HoldsOneMore(dir: Directory, d: Disk, p: Path)
    requires DistinctNames(d) && p in d && Holds(dir, d - {p})
    ensures Holds(dir[FileName(p) := Render(d[p])], d)
  {
    var more := dir[FileName(p) := Render(d[p])];
    DistinctRest(d, p);
    forall q | q in d ensures HasBytes(more, d, q) {
      if q != p {
        assert q in d - {p};
        HasBytesStill(dir, d, p, q);
      }
    }
    forall name | name in more ensures HasName(d, name) {
      HasNameMore(d, p, name);
    }
  }

  lemma {:induction false} DirectoryExists(d: Disk) returns (dir: Directory)
    requires DistinctNames(d)
    ensures Holds(dir, d)
    decreases |d|
  {
    dir := map[];
    if d != map[] {
      var p :| p in d;
      DistinctRest(d, p);
      var smaller := DirectoryExists(d - {p});
      HoldsOneMore(smaller, d, p);
      dir := smaller[FileName(p) := Render(d[p])];
    }
  }

  ghost function DirOf(d: Disk): Directory
    requires DistinctNames(d)
  {
    assert exists dir :: Holds(dir, d) by {
      var dir := DirectoryExists(d);
    }
    var dir :| Holds(dir, d);
    dir
  }

  /** Reading a file that does not exist yields no bytes. */
  function Bytes(dir: Directory, p: Path): string {
    if FileName(p) in dir then dir[FileName(p)] else ""
  }

  lemma BytesAreRendered(d: Disk, p: Path)
    requires Tidy(d) && PlainPath(p) && DistinctNames(d)
    ensures Bytes(DirOf(d), p) == Render(Read(d, p))
  {
    forall q | q in d && q != p ensures FileName(q) != FileName(p) {
      PlainPathsDiffer(p, q);
    }
  }

  /** What the code reads back from the bytes is what the disk holds, split by field or extracted by word. */
  lemma BytesAreRecords(d: Disk, p: Path)
    requires Tidy(d) && PlainPath(p)
    ensures DistinctNames(d)
    ensures Parse(Bytes(DirOf(d), p)) == Read(d, p)
    ensures p == Credentials || p == Pending ==> forall r :: r in Read(d, p) ==> Words(r) == r
  {
    TidyNames(d);
    BytesAreRendered(d, p);
    CleanFileIsClean(p, Read(d, p));
    ParseUndoesRender(Read(d, p));
    if p == Credentials || p == Pending {
      forall r | r in Read(d, p) ensures Words(r) == r {
        WordsIffNonEmpty(r);
      }
    }
  }

  lemma DirAt(d: Disk, p: Path)
    requires DistinctNames(d) && p in d
    ensures FileName(p) in DirOf(d) && DirOf(d)[FileName(p)] == Render(d[p])
  {
    assert HasBytes(DirOf(d), d, p);
  }

  lemma DirKeys(d: Disk, name: string) returns (p: Path)
    requires DistinctNames(d) && name in DirOf(d)
    ensures p in d && FileName(p) == name && DirOf(d)[name] == Render(d[p])
  {
    assert HasName(d, name);
    p :| p in d && FileName(p) == name;
    DirAt(d, p);
  }

  lemma DirLacks(d: Disk, p: Path)
    requires Tidy(d) && PlainPath(p) && p !in d && DistinctNames(d)
    ensures FileName(p) !in DirOf(d)
  {
    if FileName(p) in DirOf(d) {
      var q := DirKeys(d, FileName(p));
      PlainPathsDiffer(p, q);
    }
  }

  lemma {:induction false} RenderedOnce(d: Disk, e: Disk, p: Path)
    requires Tidy(d) && Tidy(e) && DistinctNames(d) && DistinctNames(e) && DirOf(d) == DirOf(e) && p in d
    ensures p in e && d[p] == e[p]
  {
    DirAt(d, p);
    var q := DirKeys(e, FileName(p));
    if q != p {
      PlainPathsDiffer(p, q);
    }
    CleanFileIsClean(p, d[p]);
    CleanFileIsClean(p, e[p]);
    ParseUndoesRender(d[p]);
    ParseUndoesRender(e[p]);
  }

  lemma RenderedAll(d: Disk, e: Disk)
    requires Tidy(d) && Tidy(e) && DistinctNames(d) && DistinctNames(e) && DirOf(d) == DirOf(e)
    ensures forall p :: p in d ==> p in e && d[p] == e[p]
  {
    forall p | p in d ensures p in e && d[p] == e[p] {
      RenderedOnce(d, e, p);
    }
  }

  lemma SameFiles(d: Disk, e: Disk)
    requires forall p :: p in d ==> p in e && d[p] == e[p]
    requires forall p :: p in e ==> p in d && e[p] == d[p]
    ensures d == e
  {
  }

  /** The bytes determine the records: two tidy disks with one directory are the same disk. */
  lemma DirectoryDeterminesDisk(d: Disk, e: Disk)
    requires Tidy(d) && Tidy(e)
    ensures DistinctNames(d) && DistinctNames(e)
    ensures DirOf(d) == DirOf(e) <==> d == e
  {
    TidyNames(d);
    TidyNames(e);
    if DirOf(d) == DirOf(e) {
      RenderedAll(d, e);
      RenderedAll(e, d);
      SameFiles(d, e);
    }
  }

  /** A directory with the same entries is the directory of the disk. */
  lemma SameDirectory(d: Disk, dir: Directory)
    requires DistinctNames(d) && Holds(dir, d)
    ensures DirOf(d) == dir
  {
    var own := DirOf(d);
    forall name | name in dir ensures name in own && own[name] == dir[name] {
      assert HasName(d, name);
      var p :| p in d && FileName(p) == name;
      assert HasBytes(dir, d, p);
      DirAt(d, p);
    }
    forall name | name in own ensures name in dir {
      var p := DirKeys(d, name);
      assert HasBytes(dir, d, p);
    }
  }

  lemma {:induction false} HasBytesAfter(d: Disk, p: Path, s: File, q: Path)
    requires Tidy(d) && DistinctNames(d) && PlainPath(p) && q in d[p := s]
    ensures HasBytes(DirOf(d)[FileName(p) := Render(s)], d[p := s], q)
  {
    if q != p {
      PlainPathsDiffer(q, p);
      DirAt(d, q);
    }
  }

  lemma HasNameAfter(d: Disk, p: Path, s: File, name: string)
    requires DistinctNames(d) && (name == FileName(p) || name in DirOf(d))
    ensures HasName(d[p := s], name)
  {
    if name == FileName(p) {
      assert p in d[p := s];
    } else {
      var q := DirKeys(d, name);
      assert q in d[p := s];
    }
  }

  lemma {:induction false} ReplaceBytes(d: Disk, p: Path, s: File)
    requires Tidy(d) && PlainPath(p) && CleanFile(p, s)
    ensures DistinctNames(d) && DistinctNames(d[p := s])
    ensures DirOf(d[p := s]) == DirOf(d)[FileName(p) := Render(s)]
  {
    TidyNames(d);
    TidyUpdate(d, p, s);
    var d', dir := d[p := s], DirOf(d)[FileName(p) := Render(s)];
    TidyNames(d');
    forall q | q in d' ensures HasBytes(dir, d', q) {
      HasBytesAfter(d, p, s, q);
    }
    forall name | name in dir ensures HasName(d', name) {
      HasNameAfter(d, p, s, name);
    }
    SameDirectory(d', dir);
  }

  /******* Edits *******/

  /** What the handlers do to a file: append a line, rewrite it without some lines, or overwrite it. */
  datatype Edit =
    | AddLine(path: Path, line: Record)
    | DropMatching(path: Path, m: Match)
    | Rewrite(path: Path, content: File)

  function OnDisk(d: Disk, e: Edit): Disk {
    match e
    case AddLine(p, r) => Append(d, p, r)
    case DropMatching(p, m) => Delete(d, p, m)
    case Rewrite(p, s) => d[p := s]
  }

  /** The same on the bytes, addressed by file name. */
  function OnBytes(dir: Directory, e: Edit): Directory {
    dir[FileName(e.path) :=
        match e
        case AddLine(p, r) => Bytes(dir, p) + Join(r, ' ') + "\n"
        case DropMatching(p, m) => KeepLines(Lines(Bytes(dir, p)), m)
        case Rewrite(_, s) => Render(s)]
  }

  ghost predicate CleanEdit(e: Edit) {
    && PlainPath(e.path)
    && match e
       case AddLine(p, r) => CleanLine(p, r)
       case DropMatching(_, m) => CleanMatch(m)
       case Rewrite(p, s) => CleanFile(p, s)
  }

  lemma EditCommutes(d: Disk, e: Edit)
    requires Tidy(d) && CleanEdit(e)
    ensures Tidy(OnDisk(d, e)) && DistinctNames(d) && DistinctNames(OnDisk(d, e))
    ensures DirOf(OnDisk(d, e)) == OnBytes(DirOf(d), e)
  {
    var p := e.path;
    var s := Read(d, p);
    TidyNames(d);
    BytesAreRendered(d, p);
    CleanFileIsClean(p, s);
    match e
    case AddLine(_, r) =>
      AppendRefines(s, r);
      TidyUpdate(d, p, s + [r]);
      ReplaceBytes(d, p, s + [r]);
    case DropMatching(_, m) =>
      DeleteRefinesDrop(s, m);
      TidyUpdate(d, p, Drop(s, m));
      ReplaceBytes(d, p, Drop(s, m));
    case Rewrite(_, t) =>
      TidyUpdate(d, p, t);
      ReplaceBytes(d, p, t);
  }

  function AllOnDisk(d: Disk, es: seq<Edit>): Disk
    decreases |es|
  {
    if es == [] then d else AllOnDisk(OnDisk(d, es[0]), es[1..])
  }

  function AllOnBytes(dir: Directory, es: seq<Edit>): Directory
    decreases |es|
  {
    if es == [] then dir else AllOnBytes(OnBytes(dir, es[0]), es[1..])
  }

  lemma {:induction false} EditsCommute(d: Disk, es: seq<Edit>)
    requires Tidy(d) && forall e :: e in es ==> CleanEdit(e)
    ensures Tidy(AllOnDisk(d, es)) && DistinctNames(d) && DistinctNames(AllOnDisk(d, es))
    ensures DirOf(AllOnDisk(d, es)) == AllOnBytes(DirOf(d), es)
    decreases |es|
  {
    TidyNames(d);
    if es != [] {
      EditCommutes(d, es[0]);
      EditsCommute(OnDisk(d, es[0]), es[1..]);
    }
  }
}
