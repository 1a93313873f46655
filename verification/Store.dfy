/** The tracker's flat files: one file per (kind, name), each a list of records. */
module Store {
  import opened Text

  datatype Path =
    | Credentials
    | Online
    | Groups
    | Pending
    | Members(group: string)
    | GroupFiles(group: string)
    | UserFiles(user: string)
    | Downloading(user: string)
    | Downloaded(user: string)

  type File = seq<Record>
  type Disk = map<Path, File>

  /** Field `i` of a split line; reading past the last field is undefined in the source, "" here. */
  function Field(r: Record, i: nat): string {
    if i < |r| then r[i] else ""
  }

  /** Reading a file that does not exist yields no lines. */
  function Read(d: Disk, p: Path): File {
    if p in d then d[p] else []
  }

  /** Appending a line creates the file when needed. */
  function Append(d: Disk, p: Path, r: Record): Disk {
    d[p := Read(d, p) + [r]]
  }

  /******* Deleting lines *******/

  /** Which lines a rewrite leaves out: by one field, by two fields, or by the whole line. */
  datatype Match =
    | ByField(i: nat, v: string)
    | ByFields(i: nat, v: string, j: nat, w: string)
    | Whole(line: Record)

  predicate Matches(m: Match, r: Record) {
    match m
    case ByField(i, v) => Field(r, i) == v
    case ByFields(i, v, j, w) => Field(r, i) == v && Field(r, j) == w
    case Whole(line) => r == line
  }

  /** The lines of `s` that do not match, in order. */
  function Drop(s: File, m: Match): (kept: File)
    ensures forall r :: r in kept <==> r in s && !Matches(m, r)
  {
    if s == [] then []
    else
      var last := s[|s| - 1];
      assert s == s[..|s| - 1] + [last];
      Drop(s[..|s| - 1], m) + if Matches(m, last) then [] else [last]
  }

  /** Rewriting a file through the temporary file; a missing one comes to exist. */
  function Delete(d: Disk, p: Path, m: Match): Disk {
    d[p := Drop(Read(d, p), m)]
  }

  /** Two records of `s` at different places never agree on fields `i` and `j`. */
  ghost predicate UniqueBy(s: File, i: nat, j: nat) {
    forall x, y :: 0 <= x < y < |s| ==> Field(s[x], i) != Field(s[y], i) || Field(s[x], j) != Field(s[y], j)
  }

  lemma {:induction false} DropUnique(s: File, m: Match, i: nat, j: nat)
    requires UniqueBy(s, i, j)
    ensures UniqueBy(Drop(s, m), i, j)
  {
    if s != [] {
      var init, last := s[..|s| - 1], s[|s| - 1];
      DropUnique(init, m, i, j);
      var kept := Drop(init, m);
      forall x | 0 <= x < |kept| ensures Field(kept[x], i) != Field(last, i) || Field(kept[x], j) != Field(last, j) {
        assert kept[x] in kept && kept[x] in init;
      }
    }
  }

  lemma {:induction false} DropSnoc(s: File, m: Match, i: nat)
    requires i < |s|
    ensures Drop(s[..i + 1], m) == Drop(s[..i], m) + if Matches(m, s[i]) then [] else [s[i]]
  {
    assert s[..i + 1][..i] == s[..i];
  }

  /** The rewrite loop on lines already split. */
  method DropLines(s: File, m: Match) returns (kept: File)
    ensures kept == Drop(s, m)
  {
    kept := [];
    for i := 0 to |s|
      invariant kept == Drop(s[..i], m)
    {
      DropSnoc(s, m, i);
      if !Matches(m, s[i]) {
        kept := kept + [s[i]];
      }
    }
    assert s[..|s|] == s;
  }

  /******* The same on bytes *******/

  /** Whether the raw line is left out: the whole-line form compares text, the others split fields. */
  predicate LineMatches(m: Match, line: string) {
    if m.Whole? then line == Join(m.line, ' ') else Matches(m, Split(line, ' '))
  }

  function KeepLines(lines: seq<string>, m: Match): string {
    if lines == [] then ""
    else
      var last := lines[|lines| - 1];
      KeepLines(lines[..|lines| - 1], m) + if LineMatches(m, last) then "" else last + "\n"
  }

  lemma {:induction false} KeepSnoc(lines: seq<string>, m: Match, i: nat)
    requires i < |lines|
    ensures KeepLines(lines[..i + 1], m)
         == KeepLines(lines[..i], m) + if LineMatches(m, lines[i]) then "" else lines[i] + "\n"
  {
    assert lines[..i + 1][..i] == lines[..i];
  }

  /** `DeleteLine` and the rewrite loops on the bytes of a file: every line that does not match is copied. */
  method DeleteLineBytes(content: string, m: Match) returns (out: string)
    ensures out == KeepLines(Lines(content), m)
  {
    var lines := Lines(content);
    out := "";
    for i := 0 to |lines|
      invariant out == KeepLines(lines[..i], m)
    {
      KeepSnoc(lines, m, i);
      if !LineMatches(m, lines[i]) {
        out := out + (lines[i] + "\n");
      }
    }
    assert lines[..|lines|] == lines;
  }

  ghost predicate CleanMatch(m: Match) {
    m.Whole? ==> Clean([m.line])
  }

  lemma {:induction false} LineMatchIsRecordMatch(m: Match, r: Record)
    requires CleanMatch(m) && Clean([r])
    ensures LineMatches(m, Join(r, ' ')) <==> Matches(m, r)
  {
    assert [r][0] == r && Free(r, ' ');
    SplitUndoesJoin(r, ' ');
    if m.Whole? {
      assert [m.line][0] == m.line && Free(m.line, ' ');
      SplitUndoesJoin(m.line, ' ');
    }
  }

  lemma {:induction false} RenderKept(kept: File, last: Record, dropped: bool)
    ensures Render(kept + if dropped then [] else [last])
         == Render(kept) + if dropped then "" else Join(last, ' ') + "\n"
  {
    if dropped {
      assert kept + [] == kept && Render(kept) + "" == Render(kept);
    } else {
      AppendRefines(kept, last);
      assert Render(kept) + Join(last, ' ') + "\n" == Render(kept) + (Join(last, ' ') + "\n");
    }
  }

  /** Deleting lines in the bytes is deleting records in the abstract file. */
  lemma {:induction false} KeepLinesIsDrop(s: File, m: Match)
    requires Clean(s) && CleanMatch(m)
    ensures KeepLines(JoinAll(s), m) == Render(Drop(s, m))
  {
    if s != [] {
      var init, last := s[..|s| - 1], s[|s| - 1];
      KeepLinesIsDrop(init, m);
      LineMatchIsRecordMatch(m, last);
      assert JoinAll(s)[..|s| - 1] == JoinAll(init);
      RenderKept(Drop(init, m), last, Matches(m, last));
    }
  }

  /** On a file written by the handlers, the byte-level rewrite leaves exactly the surviving records. */
  lemma {:induction false} DeleteRefinesDrop(s: File, m: Match)
    requires Clean(s) && CleanMatch(m)
    ensures KeepLines(Lines(Render(s)), m) == Render(Drop(s, m))
    ensures Clean(Drop(s, m))
    ensures Parse(Render(Drop(s, m))) == Drop(s, m)
  {
    ParseUndoesRender(s);
    KeepLinesIsDrop(s, m);
    var kept := Drop(s, m);
    forall i | 0 <= i < |kept| ensures |kept[i]| >= 1 && Free(kept[i], ' ') && Free(kept[i], '\n') {
      assert kept[i] in s;
    }
    ParseUndoesRender(kept);
  }

  /** Appending a line to the bytes appends a record. */
  lemma {:induction false} AppendRefines(s: File, r: Record)
    ensures Render(s) + Join(r, ' ') + "\n" == Render(s + [r])
  {
  }

  /******* File names *******/

  function Prefix(p: Path): string {
    match p
    case Credentials => ".credential.txt"
    case Online => ".online.txt"
    case Groups => ".group.txt"
    case Pending => ".pending.txt"
    case Members(_) => ".group_"
    case GroupFiles(_) => ".group_"
    case _ => ".files_"
  }

  function NameOf(p: Path): string {
    match p
    case Members(g) => g
    case GroupFiles(g) => g
    case UserFiles(u) => u
    case Downloading(u) => u
    case Downloaded(u) => u
    case _ => ""
  }

  function Suffix(p: Path): string {
    match p
    case Members(_) => ".txt"
    case GroupFiles(_) => "_files.txt"
    case UserFiles(_) => ".txt"
    case Downloading(_) => "_downloading.txt"
    case Downloaded(_) => "_downloaded.txt"
    case _ => ""
  }

  function FileName(p: Path): string {
    ".all_files/" + (Prefix(p) + NameOf(p) + Suffix(p))
  }

  /** The file lies directly in the tracker's directory, where opening it can create it. */
  ghost predicate Openable(p: Path) {
    '/' !in Prefix(p) + NameOf(p) + Suffix(p)
  }

  /** A file can be created exactly when the name it is made for holds no slash. */
  lemma OpenableExactly(p: Path)
    ensures Openable(p) <==> '/' !in NameOf(p)
  {
    assert '/' !in Prefix(p) && '/' !in Suffix(p);
  }

  /** The only way two different files share a name: one's name ends in the other's suffix. */
  ghost predicate Clash(p: Path, q: Path) {
    || (p.Members? && q.GroupFiles? && p.group == q.group + "_files")
    || (p.UserFiles? && q.Downloading? && p.user == q.user + "_downloading")
    || (p.UserFiles? && q.Downloaded? && p.user == q.user + "_downloaded")
  }

  lemma Cancel(pre: string, x: string, y: string)
    ensures pre + x == pre + y <==> x == y
  {
    assert (pre + x)[|pre|..] == x && (pre + y)[|pre|..] == y;
  }

  lemma CancelEnd(x: string, y: string, post: string)
    ensures x + post == y + post <==> x == y
  {
    assert (x + post)[..|x + post| - |post|] == x && (y + post)[..|y + post| - |post|] == y;
  }

  /** Different prefixes never yield the same name. */
  lemma PrefixesDiffer(p: Path, q: Path)
    requires Prefix(p) != Prefix(q)
    ensures FileName(p) != FileName(q)
  {
    var a, b := Prefix(p) + NameOf(p) + Suffix(p), Prefix(q) + NameOf(q) + Suffix(q);
    Cancel(".all_files/", a, b);
    assert |a| >= 7 && |b| >= 7;
    assert a[1] == Prefix(p)[1] && b[1] == Prefix(q)[1];
    assert a[6] == Prefix(p)[6] && b[6] == Prefix(q)[6];
  }

  lemma SameSuffix(p: Path, q: Path)
    requires Prefix(p) == Prefix(q) && Suffix(p) == Suffix(q)
    ensures FileName(p) == FileName(q) <==> NameOf(p) == NameOf(q)
  {
    Cancel(".all_files/", Prefix(p) + NameOf(p) + Suffix(p), Prefix(q) + NameOf(q) + Suffix(q));
    CancelEnd(Prefix(p) + NameOf(p), Prefix(q) + NameOf(q), Suffix(p));
    Cancel(Prefix(p), NameOf(p), NameOf(q));
  }

  /** A suffix that is a tag before ".txt" clashes exactly with a plain name ending in that tag. */
  lemma TaggedSuffix(p: Path, q: Path, tag: string)
    requires Prefix(p) == Prefix(q) && Suffix(p) == ".txt" && Suffix(q) == tag + ".txt"
    ensures FileName(p) == FileName(q) <==> NameOf(p) == NameOf(q) + tag
  {
    var pre, a, b := Prefix(p), NameOf(p), NameOf(q);
    Cancel(".all_files/", pre + a + ".txt", pre + b + (tag + ".txt"));
    assert pre + b + (tag + ".txt") == pre + (b + tag) + ".txt";
    CancelEnd(pre + a, pre + (b + tag), ".txt");
    Cancel(pre, a, b + tag);
  }

  lemma LedgersDiffer(p: Path, q: Path)
    requires p.Downloading? && q.Downloaded?
    ensures FileName(p) != FileName(q)
  {
    var a, b := FileName(p), FileName(q);
    assert a[|a| - 5] == 'g' && b[|b| - 5] == 'd';
  }

  lemma GroupFilesClash(p: Path, q: Path)
    requires Prefix(p) == Prefix(q) == ".group_" && Suffix(p) != Suffix(q)
    ensures FileName(p) == FileName(q) <==> Clash(p, q) || Clash(q, p)
  {
    if p.Members? {
      TaggedSuffix(p, q, "_files");
    } else {
      TaggedSuffix(q, p, "_files");
    }
  }

  lemma UserFilesClash(p: Path, q: Path)
    requires p.UserFiles? && (q.Downloading? || q.Downloaded?)
    ensures FileName(p) == FileName(q) <==> Clash(p, q)
  {
    TaggedSuffix(p, q, if q.Downloading? then "_downloading" else "_downloaded");
  }

  lemma SameFolderClash(p: Path, q: Path)
    requires Prefix(p) == Prefix(q) == ".files_" && Suffix(p) != Suffix(q)
    ensures FileName(p) == FileName(q) <==> Clash(p, q) || Clash(q, p)
  {
    if p.UserFiles? {
      UserFilesClash(p, q);
    } else if q.UserFiles? {
      UserFilesClash(q, p);
    } else if p.Downloading? {
      LedgersDiffer(p, q);
    } else {
      LedgersDiffer(q, p);
    }
  }

  /** Two different files of the store share a file name exactly when their names clash. */
  lemma FileNamesClashExactly(p: Path, q: Path)
    requires p != q
    ensures FileName(p) == FileName(q) <==> Clash(p, q) || Clash(q, p)
  {
    if Prefix(p) != Prefix(q) {
      PrefixesDiffer(p, q);
    } else if Suffix(p) == Suffix(q) {
      SameSuffix(p, q);
    } else if Prefix(p) == ".group_" {
      GroupFilesClash(p, q);
    } else {
      SameFolderClash(p, q);
    }
  }
}
