/**
  The tracker's disk seen as a few finite sets and maps. Each change the handlers make to a file is one
  simple change to the view.
 */
module View {
  import opened Text
  import opened Store
  import opened Handlers

  /** (group, user) */
  type Pair = (string, string)
  /** (group, user, file name) */
  type Entry = (string, string, string)

  datatype View = View(
    users: set<string>,
    owners: map<string, string>,
    members: set<Pair>,
    online: set<string>,
    /** (user, group) */
    pending: set<Pair>,
    /** Group g's list has a line for user u and file f. */
    listed: set<Entry>,
    /** User u's own list has a line for group g and file f. */
    shared: set<Entry>,
    /** Group g's list has a line with hash h and file name f: (g, h, f). */
    named: set<Entry>)

  function MemberPairs(d: Disk): set<Pair> {
    set p, r | p in d && p.Members? && r in d[p] :: (p.group, Field(r, 0))
  }

  function ListedEntries(d: Disk): set<Entry> {
    set p, r | p in d && p.GroupFiles? && r in d[p] :: (p.group, Field(r, 2), Field(r, 3))
  }

  function SharedEntries(d: Disk): set<Entry> {
    set p, r | p in d && p.UserFiles? && r in d[p] :: (Field(r, 0), p.user, Field(r, 1))
  }

  function NamedEntries(d: Disk): set<Entry> {
    set p, r | p in d && p.GroupFiles? && r in d[p] :: (p.group, Field(r, 0), Field(r, 3))
  }

  function ViewOf(d: Disk): View {
    View(Column(Read(d, Credentials), 0), PairMap(Read(d, Groups)), MemberPairs(d), Column(Read(d, Online), 0),
         PairSet(Read(d, Pending)), ListedEntries(d), SharedEntries(d), NamedEntries(d))
  }

  /******* What each line contributes *******/

  /** The entries of the listing of group `g` when its file holds `s`. */
  function ListedIn(g: string, s: File): set<Entry> {
    set r | r in s :: (g, Field(r, 2), Field(r, 3))
  }

  function NamedIn(g: string, s: File): set<Entry> {
    set r | r in s :: (g, Field(r, 0), Field(r, 3))
  }

  function SharedBy(u: string, s: File): set<Entry> {
    set r | r in s :: (Field(r, 0), u, Field(r, 1))
  }

  function MembersIn(g: string, s: File): set<Pair> {
    set r | r in s :: (g, Field(r, 0))
  }

  lemma NoEntriesNoLines(s: File, n: string)
    ensures SharedBy(n, s) == {} ==> s == []
    ensures ListedIn(n, s) == {} ==> s == []
  {
    if s != [] {
      assert s[0] in s;
      assert (Field(s[0], 0), n, Field(s[0], 1)) in SharedBy(n, s);
      assert (n, Field(s[0], 2), Field(s[0], 3)) in ListedIn(n, s);
    }
  }

  lemma OneMember(g: string, u: string)
    ensures MembersIn(g, [[u]]) == {(g, u)}
  {
    assert [u] in [[u]];
  }

  lemma MembersAt(d: Disk, g: string)
    ensures forall u :: (g, u) in MemberPairs(d) <==> u in MembersOf(d, g)
    ensures (set t | t in MemberPairs(d) && t.0 == g) == MembersIn(g, Read(d, Members(g)))
  {
  }

  lemma ListedAt(d: Disk, g: string)
    ensures (set t | t in ListedEntries(d) && t.0 == g) == ListedIn(g, Read(d, GroupFiles(g)))
  {
  }

  lemma NamedAt(d: Disk, g: string)
    ensures (set t | t in NamedEntries(d) && t.0 == g) == NamedIn(g, Read(d, GroupFiles(g)))
  {
  }

  lemma SharedAt(d: Disk, u: string)
    ensures (set t | t in SharedEntries(d) && t.1 == u) == SharedBy(u, Read(d, UserFiles(u)))
  {
  }

  /******* Replacing one file *******/

  lemma MembersUpdate(d: Disk, p: Path, s: File)
    ensures MemberPairs(d[p := s]) ==
      if p.Members? then (set t | t in MemberPairs(d) && t.0 != p.group) + MembersIn(p.group, s) else MemberPairs(d)
  {
  }

  lemma ListedUpdate(d: Disk, p: Path, s: File)
    ensures ListedEntries(d[p := s]) ==
      if p.GroupFiles? then (set t | t in ListedEntries(d) && t.0 != p.group) + ListedIn(p.group, s) else ListedEntries(d)
  {
  }

  lemma NamedUpdate(d: Disk, p: Path, s: File)
    ensures NamedEntries(d[p := s]) ==
      if p.GroupFiles? then (set t | t in NamedEntries(d) && t.0 != p.group) + NamedIn(p.group, s) else NamedEntries(d)
  {
  }

  lemma SharedUpdate(d: Disk, p: Path, s: File)
    ensures SharedEntries(d[p := s]) ==
      if p.UserFiles? then (set t | t in SharedEntries(d) && t.1 != p.user) + SharedBy(p.user, s) else SharedEntries(d)
  {
  }

  /** The view after one file is replaced. */
  function Replaced(v: View, p: Path, s: File): View {
    match p
    case Credentials => v.(users := Column(s, 0))
    case Online => v.(online := Column(s, 0))
    case Groups => v.(owners := PairMap(s))
    case Pending => v.(pending := PairSet(s))
    case Members(g) => v.(members := (set t | t in v.members && t.0 != g) + MembersIn(g, s))
    case GroupFiles(g) =>
      v.(listed := (set t | t in v.listed && t.0 != g) + ListedIn(g, s),
         named := (set t | t in v.named && t.0 != g) + NamedIn(g, s))
    case UserFiles(u) => v.(shared := (set t | t in v.shared && t.1 != u) + SharedBy(u, s))
    case _ => v
  }

  lemma ReplaceView(d: Disk, p: Path, s: File)
    ensures ViewOf(d[p := s]) == Replaced(ViewOf(d), p, s)
  {
    MembersUpdate(d, p, s);
    ListedUpdate(d, p, s);
    NamedUpdate(d, p, s);
    SharedUpdate(d, p, s);
  }

  /******* Appending a line *******/

  function Appended(v: View, p: Path, r: Record): View {
    match p
    case Credentials => v.(users := v.users + {Field(r, 0)})
    case Online => v.(online := v.online + {Field(r, 0)})
    case Groups => v.(owners := v.owners[Field(r, 0) := Field(r, 1)])
    case Pending => v.(pending := v.pending + {(Field(r, 0), Field(r, 1))})
    case Members(g) => v.(members := v.members + {(g, Field(r, 0))})
    case GroupFiles(g) =>
      v.(listed := v.listed + {(g, Field(r, 2), Field(r, 3))}, named := v.named + {(g, Field(r, 0), Field(r, 3))})
    case UserFiles(u) => v.(shared := v.shared + {(Field(r, 0), u, Field(r, 1))})
    case _ => v
  }

  lemma Contributions(s: File, r: Record, n: string)
    ensures MembersIn(n, s + [r]) == MembersIn(n, s) + {(n, Field(r, 0))}
    ensures ListedIn(n, s + [r]) == ListedIn(n, s) + {(n, Field(r, 2), Field(r, 3))}
    ensures NamedIn(n, s + [r]) == NamedIn(n, s) + {(n, Field(r, 0), Field(r, 3))}
    ensures SharedBy(n, s + [r]) == SharedBy(n, s) + {(Field(r, 0), n, Field(r, 1))}
  {
  }

  lemma {:induction false} BaseContributions(s: File, r: Record)
    ensures Column(s + [r], 0) == Column(s, 0) + {Field(r, 0)}
    ensures PairMap(s + [r]) == PairMap(s)[Field(r, 0) := Field(r, 1)]
    ensures PairSet(s + [r]) == PairSet(s) + {(Field(r, 0), Field(r, 1))}
  {
  }

  lemma AppendMember(d: Disk, g: string, r: Record)
    ensures ViewOf(Append(d, Members(g), r)) == Appended(ViewOf(d), Members(g), r)
  {
    ReplaceView(d, Members(g), Read(d, Members(g)) + [r]);
    MembersAt(d, g);
    Contributions(Read(d, Members(g)), r, g);
  }

  lemma AppendListing(d: Disk, g: string, r: Record)
    ensures ViewOf(Append(d, GroupFiles(g), r)) == Appended(ViewOf(d), GroupFiles(g), r)
  {
    ReplaceView(d, GroupFiles(g), Read(d, GroupFiles(g)) + [r]);
    ListedAt(d, g);
    NamedAt(d, g);
    Contributions(Read(d, GroupFiles(g)), r, g);
  }

  lemma AppendShare(d: Disk, u: string, r: Record)
    ensures ViewOf(Append(d, UserFiles(u), r)) == Appended(ViewOf(d), UserFiles(u), r)
  {
    ReplaceView(d, UserFiles(u), Read(d, UserFiles(u)) + [r]);
    SharedAt(d, u);
    Contributions(Read(d, UserFiles(u)), r, u);
  }

  lemma AppendBase(d: Disk, p: Path, r: Record)
    requires !p.Members? && !p.GroupFiles? && !p.UserFiles?
    ensures ViewOf(Append(d, p, r)) == Appended(ViewOf(d), p, r)
  {
    ReplaceView(d, p, Read(d, p) + [r]);
    BaseContributions(Read(d, p), r);
  }

  lemma AppendView(d: Disk, p: Path, r: Record)
    ensures ViewOf(Append(d, p, r)) == Appended(ViewOf(d), p, r)
  {
    match p
    case Members(g) => AppendMember(d, g, r);
    case GroupFiles(g) => AppendListing(d, g, r);
    case UserFiles(u) => AppendShare(d, u, r);
    case _ => AppendBase(d, p, r);
  }

  /******* Deleting lines *******/

  /** The deletions the handlers perform. */
  predicate Deletes(p: Path, m: Match) {
    match p
    case Online => m.ByField? && m.i == 0
    case Pending => m.Whole? && |m.line| == 2
    case Members(_) => m.ByField? && m.i == 0
    case GroupFiles(_) => (m.ByField? && m.i == 2) || (m.ByFields? && m.i == 3 && m.j == 2)
    case UserFiles(_) => (m.ByField? && m.i == 0) || (m.ByFields? && m.i == 0 && m.j == 1)
    case Downloading(_) => true
    case _ => false
  }

  /** The entry of a group's listing that a deletion removes. */
  predicate RemovesListed(m: Match, t: Entry) {
    (m.ByField? && t.1 == m.v) || (m.ByFields? && t.2 == m.v && t.1 == m.w)
  }

  predicate RemovesShared(m: Match, t: Entry) {
    (m.ByField? && t.0 == m.v) || (m.ByFields? && t.0 == m.v && t.2 == m.w)
  }

  lemma {:induction false} DroppedLines(p: Path, s: File, m: Match)
    requires Deletes(p, m)
    ensures p.Online? ==> Column(Drop(s, m), 0) == Column(s, 0) - {m.v}
    ensures p.Members? ==> MembersIn(p.group, Drop(s, m)) == MembersIn(p.group, s) - {(p.group, m.v)}
    ensures p.GroupFiles? ==>
      ListedIn(p.group, Drop(s, m)) == set t | t in ListedIn(p.group, s) && !RemovesListed(m, t)
    ensures p.UserFiles? ==>
      SharedBy(p.user, Drop(s, m)) == set t | t in SharedBy(p.user, s) && !RemovesShared(m, t)
  {
  }

  lemma PairMatches(line: Record, r: Record)
    requires |line| == 2 && |r| == 2
    ensures Matches(Whole(line), r) <==> (Field(r, 0), Field(r, 1)) == (line[0], line[1])
  {
    assert r == [r[0], r[1]] && line == [line[0], line[1]];
  }

  lemma {:induction false} PairSetDrop(s: File, line: Record)
    requires |line| == 2 && forall r :: r in s ==> |r| == 2
    ensures PairSet(Drop(s, Whole(line))) == PairSet(s) - {(line[0], line[1])}
  {
    forall r | r in s ensures Matches(Whole(line), r) <==> (Field(r, 0), Field(r, 1)) == (line[0], line[1]) {
      PairMatches(line, r);
    }
  }

  /** What a deletion leaves of the view; `named` can only shrink. */
  ghost predicate Deleted(v: View, p: Path, m: Match, w: View)
    requires Deletes(p, m)
  {
    match p
    case Online => w == v.(online := v.online - {m.v})
    case Pending => w == v.(pending := v.pending - {(m.line[0], m.line[1])})
    case Members(g) => w == v.(members := v.members - {(g, m.v)})
    case GroupFiles(g) =>
      && w.named <= v.named
      && w == v.(listed := (set t | t in v.listed && !(t.0 == g && RemovesListed(m, t))), named := w.named)
    case UserFiles(u) => w == v.(shared := (set t | t in v.shared && !(t.1 == u && RemovesShared(m, t))))
    case _ => w == v
  }

  lemma DeleteView(d: Disk, p: Path, m: Match)
    requires Deletes(p, m)
    requires p.Pending? ==> forall r :: r in Read(d, p) ==> |r| == 2
    ensures Deleted(ViewOf(d), p, m, ViewOf(Delete(d, p, m)))
  {
    var s := Read(d, p);
    ReplaceView(d, p, Drop(s, m));
    DroppedLines(p, s, m);
    match p
    case Pending => PairSetDrop(s, m.line);
    case Members(g) => MembersAt(d, g);
    case GroupFiles(g) => DeleteListing(d, g, m);
    case UserFiles(u) => SharedAt(d, u);
    case _ =>
  }

  lemma DeleteListing(d: Disk, g: string, m: Match)
    requires Deletes(GroupFiles(g), m)
    ensures Deleted(ViewOf(d), GroupFiles(g), m, ViewOf(Delete(d, GroupFiles(g), m)))
  {
    var p, s := GroupFiles(g), Read(d, GroupFiles(g));
    ReplaceView(d, p, Drop(s, m));
    DroppedLines(p, s, m);
    ListedAt(d, g);
    NamedAt(d, g);
    assert NamedIn(g, Drop(s, m)) <= NamedIn(g, s);
  }
}
