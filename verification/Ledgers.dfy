/** What the two download ledgers of a user mean. */
module Ledgers {
  import opened Text
  import opened Store
  import opened Handlers
  import opened View
  import opened Invariants
  import opened Commands
  import opened Names
  import opened Replication
  import opened Guarantees

  /** `show_downloads` names file `f` of group `g` as in progress. */
  ghost predicate InProgress(d: Disk, u: string, g: string, f: string) {
    [g, f] in DoShowDownloads(d, u).reply.downloading
  }

  /** `show_downloads` names file `f` of group `g` as completed. */
  ghost predicate Completed(d: Disk, u: string, g: string, f: string) {
    [g, f] in DoShowDownloads(d, u).reply.downloaded
  }

  /** What a command may do to the ledgers of `u`. */
  ghost predicate LedgersMove(d: Disk, d': Disk, c: Command, u: string, g: string, f: string) {
    && (Completed(d', u, g, f) <==> Completed(d, u, g, f) || c == Complete(g, f, u))
    && (InProgress(d', u, g, f) <==>
        || (InProgress(d, u, g, f) && c != Complete(g, f, u))
        || (c == GiveSha(g, f, u) && u in MembersOf(d, g)))
  }

  lemma ShownIsStored(d: Disk, u: string, g: string, f: string)
    ensures InProgress(d, u, g, f) <==> [g, f] in Read(d, Downloading(u))
    ensures Completed(d, u, g, f) <==> [g, f] in Read(d, Downloaded(u))
  {
  }

  lemma AppendedLedgers(d: Disk, who: string, line: Record, u: string, g: string, f: string)
    ensures var d' := Append(d, Downloading(who), line);
            && (InProgress(d', u, g, f) <==> InProgress(d, u, g, f) || (u == who && line == [g, f]))
            && (Completed(d', u, g, f) <==> Completed(d, u, g, f))
  {
    ShownIsStored(d, u, g, f);
    ShownIsStored(Append(d, Downloading(who), line), u, g, f);
  }

  lemma ShaMovesLedgers(d: Disk, h: string, name: string, who: string, u: string, g: string, f: string)
    requires DiskInv(d)
    ensures LedgersMove(d, DoGiveSha(d, h, name, who).state.disk, GiveSha(h, name, who), u, g, f)
  {
    WithBaseSame(d);
    AppendedLedgers(d, who, [h, name], u, g, f);
    assert GiveSha(h, name, who) == GiveSha(g, f, u) <==> who == u && [h, name] == [g, f];
    assert DoGiveSha(d, h, name, who).state.disk
        == if who in MembersOf(d, h) then Append(d, Downloading(who), [h, name]) else d by {
      LoadIsTrue(d);
      MembersAt(d, h);
    }
  }

  lemma CompleteMovesLedgers(d: Disk, h: string, name: string, who: string, u: string, g: string, f: string)
    requires BASE <= d.Keys
    ensures LedgersMove(d, DoComplete(d, h, name, who).state.disk, Complete(h, name, who), u, g, f)
  {
    WithBaseSame(d);
    ShownIsStored(d, u, g, f);
    ShownIsStored(Finish(d, h, name, who), u, g, f);
  }

  lemma SignUpRefused(h: PasswordHash, s: State, c: Command)
    requires c.CreateUser? && c.user in ViewOf(s.disk).users
    ensures Step(h, s, c).pushed == []
  {
    LoadIsTrue(s.disk);
  }

  lemma NoLedgerPushed(o: Outcome, c: Command, u: string)
    requires PushesOpened(o, c) && !c.GiveSha? && !c.Complete? && (c.CreateUser? && c.user == u ==> o.pushed == [])
    ensures Downloading(u) !in o.pushed && Downloaded(u) !in o.pushed
  {
  }

  lemma OtherCommandsLeaveLedgers(h: PasswordHash, s: State, c: Command, u: string, o: Outcome)
    requires !c.GiveSha? && !c.Complete? && u in ViewOf(s.disk).users && o == Step(h, s, c)
    ensures Downloading(u) !in o.pushed && Downloaded(u) !in o.pushed
  {
    PushedOpens(h, s, c);
    if c.CreateUser? && c.user == u {
      SignUpRefused(h, s, c);
    }
    NoLedgerPushed(o, c, u);
  }

  lemma SameLedgers(d: Disk, d': Disk, c: Command, u: string, g: string, f: string)
    requires Read(d', Downloading(u)) == Read(d, Downloading(u)) && Read(d', Downloaded(u)) == Read(d, Downloaded(u))
    requires !c.GiveSha? && !c.Complete?
    ensures LedgersMove(d, d', c, u, g, f)
  {
    ShownIsStored(d, u, g, f);
    ShownIsStored(d', u, g, f);
  }

  lemma OtherMovesLedgers(h: PasswordHash, s: State, c: Command, u: string, g: string, f: string, o: Outcome)
    requires DiskInv(s.disk) && u in ViewOf(s.disk).users && !c.GiveSha? && !c.Complete? && o == Step(h, s, c)
    ensures LedgersMove(s.disk, o.state.disk, c, u, g, f)
  {
    StepTouches(h, s, c);
    OtherCommandsLeaveLedgers(h, s, c, u, o);
    UnpushedStay(s.disk, o, Downloading(u));
    UnpushedStay(s.disk, o, Downloaded(u));
    SameLedgers(s.disk, o.state.disk, c, u, g, f);
  }

  lemma UnpushedStay(d: Disk, o: Outcome, p: Path)
    requires Touches(d, o.state.disk, o.pushed) && p !in o.pushed
    ensures Read(o.state.disk, p) == Read(d, p)
  {
  }

  lemma OutcomeMovesLedgers(h: PasswordHash, s: State, c: Command, u: string, g: string, f: string, o: Outcome)
    requires DiskInv(s.disk) && u in ViewOf(s.disk).users && o == Step(h, s, c)
    ensures LedgersMove(s.disk, o.state.disk, c, u, g, f)
  {
    if c.GiveSha? {
      ShaMovesLedgers(s.disk, c.group, c.name, c.user, u, g, f);
    } else if c.Complete? {
      CompleteMovesLedgers(s.disk, c.group, c.name, c.user, u, g, f);
    } else {
      OtherMovesLedgers(h, s, c, u, g, f, o);
    }
  }

  lemma StepMovesLedgers(h: PasswordHash, s: State, c: Command, u: string, g: string, f: string)
    requires DiskInv(s.disk) && u in ViewOf(s.disk).users
    ensures LedgersMove(s.disk, Step(h, s, c).state.disk, c, u, g, f)
  {
    OutcomeMovesLedgers(h, s, c, u, g, f, Step(h, s, c));
  }

  /**
    No command but a member's `give_sha` puts a registered user's file in progress, none but `complete` takes it
    out or completes it, and none takes it from the completed ones.
   */
  lemma LedgersMoveInOrder(h: PasswordHash, s: State, c: Command, u: string, g: string, f: string)
    requires ReachableUp(h, s) && u in ViewOf(s.disk).users && Proper(c)
    ensures LedgersMove(s.disk, Step(h, s, c).state.disk, c, u, g, f)
  {
    ReachableInv(h, s);
    StepMovesLedgers(h, s, c, u, g, f);
  }

  /** Nothing happens to the ledgers but by commands. */
  ghost predicate LedgersLastBy(d: Disk, d': Disk, finished: bool, u: string, g: string, f: string) {
    && (Completed(d, u, g, f) ==> Completed(d', u, g, f))
    && (InProgress(d, u, g, f) && !finished ==> InProgress(d', u, g, f))
  }

  predicate Finishes(e: Event, u: string, g: string, f: string) {
    e.Run? && e.cmd == Complete(g, f, u)
  }

  lemma LastTwice(d: Disk, d': Disk, d'': Disk, a: bool, b: bool, u: string, g: string, f: string)
    requires LedgersLastBy(d, d', a, u, g, f) && LedgersLastBy(d', d'', b, u, g, f)
    ensures LedgersLastBy(d, d'', a || b, u, g, f)
  {
  }

  ghost predicate FinishesIn(events: seq<Event>, u: string, g: string, f: string) {
    exists e :: e in events && Finishes(e, u, g, f)
  }

  lemma FirstOrRest(events: seq<Event>, u: string, g: string, f: string)
    requires events != []
    ensures FinishesIn(events, u, g, f) <==> Finishes(events[0], u, g, f) || FinishesIn(events[1..], u, g, f)
  {
    assert events == [events[0]] + events[1..];
  }

  lemma UpState(n: Cluster, at: nat)
    requires SystemInv(n) && at < 2 && n[at].up
    ensures DiskInv(n[at].state.disk)
  {
    UpNode(n[at], n[Sibling(at)], n[at].state);
  }

  lemma EventMovesLedgers(h: PasswordHash, n: Cluster, e: Event, i: nat, j: nat, u: string, g: string, f: string)
    requires SystemInv(n) && Enabled(n, e) && Allowed(n, e) && i < 2 && j < 2
    requires n[i].up && Apply(h, n, e)[j].up && u in ViewOf(n[i].state.disk).users
    ensures LedgersLastBy(n[i].state.disk, Apply(h, n, e)[j].state.disk, Finishes(e, u, g, f), u, g, f)
  {
    UpDisks(h, n, e, i, j);
    if e.Run? {
      UpState(n, e.at);
      StepMovesLedgers(h, n[e.at].state, e.cmd, u, g, f);
    }
  }

  /**
    Through any further guarded run of the pair, a registered user's completed file stays completed, and one in
    progress stays so unless a `complete` of it comes, at every tracker that is up.
   */
  lemma {:induction false} LedgersLast(h: PasswordHash, n: Cluster, events: seq<Event>, i: nat, j: nat,
                                       u: string, g: string, f: string)
    requires SystemInv(n) && ValidRun(h, n, events) && Guarded(h, n, events) && i < 2 && j < 2
    requires n[i].up && Final(h, n, events)[j].up && u in ViewOf(n[i].state.disk).users
    ensures LedgersLastBy(n[i].state.disk, Final(h, n, events)[j].state.disk,
                          FinishesIn(events, u, g, f), u, g, f)
    decreases |events|
  {
    if events == [] {
      SameDisks(n, i, j);
    } else {
      var next, rest := Apply(h, n, events[0]), events[1..];
      EventSystem(h, n, events[0]);
      var k: nat := if next[0].up then 0 else 1;
      var first, mid, last := n[i].state.disk, next[k].state.disk, Final(h, next, rest)[j].state.disk;
      EventMovesLedgers(h, n, events[0], i, k, u, g, f);
      EventGrows(h, n, events[0], i, k);
      LedgersLast(h, next, rest, k, j, u, g, f);
      FirstOrRest(events, u, g, f);
      LastTwice(first, mid, last, Finishes(events[0], u, g, f), FinishesIn(rest, u, g, f), u, g, f);
    }
  }
}
