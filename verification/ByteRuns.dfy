/**
  Runs of the trackers in bytes: with proper arguments no two files ever share a name, and pushing a file by the
  lockstep protocol is pushing its records.
 */
module ByteRuns {
  import opened Store
  import opened Handlers
  import opened Names
  import opened Replication
  import opened Directory
  import opened Scripts
  import opened WholeFilePush
  import LockstepSync

  /******* Runs keep the directories tidy *******/

  /** Both disks are tidy, and a running tracker has its base files. */
  ghost predicate Orderly(n: Cluster) {
    forall i :: 0 <= i < 2 ==> Tidy(n[i].state.disk) && (n[i].up ==> BASE <= n[i].state.disk.Keys)
  }

  lemma {:induction false} PushTidy(src: Disk, dst: Disk, paths: seq<Path>)
    requires Tidy(src) && Tidy(dst)
    ensures Tidy(Push(src, dst, paths)) && dst.Keys <= Push(src, dst, paths).Keys
    decreases |paths|
  {
    if paths != [] {
      var p := paths[0];
      PushTidy(src, if p in src then dst[p := src[p]] else dst, paths[1..]);
    }
  }

  lemma OpenedTidy(d: Disk, p: Path)
    requires Tidy(d) && p in BASE
    ensures Tidy(Opened(d, p)) && p in Opened(d, p) && d.Keys <= Opened(d, p).Keys
  {
  }

  lemma BaseTidy(d: Disk)
    requires Tidy(d)
    ensures Tidy(WithBase(d)) && BASE <= WithBase(d).Keys
  {
    var d1 := Opened(d, Credentials);
    var d2 := Opened(d1, Online);
    OpenedTidy(d, Credentials);
    OpenedTidy(d1, Online);
    OpenedTidy(d2, Groups);
    OpenedTidy(Opened(d2, Groups), Pending);
  }

  lemma CatchUpTidy(own: Disk, theirs: Disk, landed: set<Path>)
    requires Tidy(own) && Tidy(theirs)
    ensures Tidy(CatchUp(own, theirs, landed)) && own.Keys <= CatchUp(own, theirs, landed).Keys
  {
  }

  lemma RestartTidy(own: Disk, theirs: Disk, landed: set<Path>)
    requires Tidy(own) && Tidy(theirs)
    ensures Tidy(CatchUp(WithBase(own), theirs, landed)) && BASE <= CatchUp(WithBase(own), theirs, landed).Keys
  {
    BaseTidy(own);
    CatchUpTidy(WithBase(own), theirs, landed);
  }

  lemma RunShape(h: PasswordHash, n: Cluster, at: nat, cmd: Command, o: Outcome)
    requires Enabled(n, Run(at, cmd)) && o == Step(h, n[at].state, cmd)
    ensures var n', other := Apply(h, n, Run(at, cmd)), n[Sibling(at)];
            && n'[at] == Node(true, o.state)
            && n'[Sibling(at)].up == other.up && n'[Sibling(at)].state.cache == other.state.cache
            && n'[Sibling(at)].state.disk
               == if other.up then Push(o.state.disk, other.state.disk, o.pushed) else other.state.disk
  {
  }

  lemma {:induction false} CommandTidy(h: PasswordHash, s: State, cmd: Command, other: Disk, o: Outcome)
    requires BASE <= s.disk.Keys && Tidy(s.disk) && Tidy(other) && Proper(cmd) && TokenHash(h) && o == Step(h, s, cmd)
    ensures Tidy(o.state.disk) && BASE <= o.state.disk.Keys
    ensures Tidy(Push(o.state.disk, other, o.pushed)) && other.Keys <= Push(o.state.disk, other, o.pushed).Keys
  {
    StepOnBytes(h, s, cmd);
    StepTouches(h, s, cmd);
    PushTidy(o.state.disk, other, o.pushed);
  }

  lemma OrderlyOf(n: Cluster, at: nat)
    requires at < 2
    requires Tidy(n[at].state.disk) && (n[at].up ==> BASE <= n[at].state.disk.Keys)
    requires var other := n[Sibling(at)]; Tidy(other.state.disk) && (other.up ==> BASE <= other.state.disk.Keys)
    ensures Orderly(n)
  {
  }

  lemma RunOrderly(h: PasswordHash, n: Cluster, at: nat, cmd: Command)
    requires Orderly(n) && Enabled(n, Run(at, cmd)) && Proper(cmd) && TokenHash(h)
    ensures Orderly(Apply(h, n, Run(at, cmd)))
  {
    var o := Step(h, n[at].state, cmd);
    CommandTidy(h, n[at].state, cmd, n[Sibling(at)].state.disk, o);
    RunShape(h, n, at, cmd, o);
    OrderlyOf(Apply(h, n, Run(at, cmd)), at);
  }

  lemma EventOrderly(h: PasswordHash, n: Cluster, e: Event)
    requires Orderly(n) && Enabled(n, e) && (e.Run? ==> Proper(e.cmd)) && TokenHash(h)
    ensures Orderly(Apply(h, n, e))
  {
    match e
    case Run(at, cmd) => RunOrderly(h, n, at, cmd);
    case Crash(_) =>
    case Restart(at, landed) => RestartTidy(n[at].state.disk, n[Sibling(at)].state.disk, landed);
  }

  lemma {:induction false} RunsOrderly(h: PasswordHash, n: Cluster, events: seq<Event>)
    requires Orderly(n) && ValidRun(h, n, events) && AllProper(events) && TokenHash(h)
    ensures Orderly(Final(h, n, events))
    decreases |events|
  {
    if events != [] {
      EventOrderly(h, n, events[0]);
      RunsOrderly(h, Apply(h, n, events[0]), events[1..]);
    }
  }

  lemma InitOrderly()
    ensures Orderly(Init())
  {
  }

  /**
    In every run with proper arguments, whatever else the commands, crashes and restarts do, the files of each
    disk have different names and clean lines, up or down.
   */
  lemma {:induction false} NamesStayDistinct(h: PasswordHash, events: seq<Event>, i: nat)
    requires ValidRun(h, Init(), events) && AllProper(events) && TokenHash(h) && i < 2
    ensures Tidy(Final(h, Init(), events)[i].state.disk) && DistinctNames(Final(h, Init(), events)[i].state.disk)
  {
    InitOrderly();
    RunsOrderly(h, Init(), events);
    TidyNames(Final(h, Init(), events)[i].state.disk);
  }

  lemma {:induction false} GuardedIsProper(h: PasswordHash, n: Cluster, events: seq<Event>)
    requires ValidRun(h, n, events) && Guarded(h, n, events)
    ensures AllProper(events)
    decreases |events|
  {
    if events != [] {
      GuardedIsProper(h, Apply(h, n, events[0]), events[1..]);
      assert events == [events[0]] + events[1..];
    }
  }

  lemma {:induction false} GuardedOrderly(h: PasswordHash, events: seq<Event>)
    requires ValidRun(h, Init(), events) && Guarded(h, Init(), events) && TokenHash(h)
    ensures Orderly(Final(h, Init(), events))
  {
    InitOrderly();
    GuardedIsProper(h, Init(), events);
    RunsOrderly(h, Init(), events);
  }

  lemma ReachableOrderly(h: PasswordHash, n: Cluster)
    requires Reachable(h, n) && TokenHash(h)
    ensures Orderly(n)
  {
    var events :| ValidRun(h, Init(), events) && Guarded(h, Init(), events) && Final(h, Init(), events) == n;
    GuardedOrderly(h, events);
  }

  /******* Pushes *******/

  /** The names under which the files are pushed. */
  function NamesOf(paths: seq<Path>): seq<string> {
    seq(|paths|, i requires 0 <= i < |paths| => FileName(paths[i]))
  }

  /** Each file is in the source directory, and its push a finished run of the lockstep protocol. */
  ghost predicate Pushes(src: Directory, names: seq<string>, runs: seq<seq<LockstepSync.Step>>) {
    && |runs| == |names|
    && forall i :: 0 <= i < |names| ==> names[i] in src && FinishedPush(src[names[i]], runs[i])
  }

  /** The sibling's directory after the pushes: what each receiver wrote, under the file's name. */
  ghost function Receive(src: Directory, dst: Directory, names: seq<string>, runs: seq<seq<LockstepSync.Step>>): Directory
    requires Pushes(src, names, runs)
    decreases |names|
  {
    if names == [] then dst
    else Receive(src, dst[names[0] := Copied(src[names[0]], runs[0])], names[1..], runs[1..])
  }

  lemma OnePush(src: Disk, dst: Disk, p: Path, run: seq<LockstepSync.Step>)
    requires Tidy(src) && Tidy(dst) && p in src && DistinctNames(src) && DistinctNames(dst)
    requires FinishedPush(DirOf(src)[FileName(p)], run)
    ensures Tidy(dst[p := src[p]]) && DistinctNames(dst[p := src[p]])
    ensures DirOf(dst)[FileName(p) := Copied(DirOf(src)[FileName(p)], run)] == DirOf(dst[p := src[p]])
  {
    DirAt(src, p);
    PushCopiesBytes(src[p], run);
    TidyUpdate(dst, p, src[p]);
    ReplaceBytes(dst, p, src[p]);
  }

  lemma ReceiveFirst(src: Directory, dst: Directory, names: seq<string>, runs: seq<seq<LockstepSync.Step>>)
    requires Pushes(src, names, runs) && names != []
    ensures Pushes(src, names[1..], runs[1..])
    ensures Receive(src, dst, names, runs)
         == Receive(src, dst[names[0] := Copied(src[names[0]], runs[0])], names[1..], runs[1..])
  {
  }

  lemma PushFirst(src: Disk, dst: Disk, paths: seq<Path>)
    requires paths != [] && paths[0] in src
    ensures Push(src, dst, paths) == Push(src, dst[paths[0] := src[paths[0]]], paths[1..])
    ensures NamesOf(paths)[0] == FileName(paths[0]) && NamesOf(paths)[1..] == NamesOf(paths[1..])
  {
  }

  /** Pushing files one after the other, however each transfer interleaves, is copying their records. */
  lemma {:induction false} PushIsLockstep(src: Disk, dst: Disk, paths: seq<Path>, runs: seq<seq<LockstepSync.Step>>)
    requires Tidy(src) && Tidy(dst) && DistinctNames(src) && DistinctNames(dst)
    requires (forall p :: p in paths ==> p in src) && Pushes(DirOf(src), NamesOf(paths), runs)
    ensures DistinctNames(Push(src, dst, paths))
    ensures Receive(DirOf(src), DirOf(dst), NamesOf(paths), runs) == DirOf(Push(src, dst, paths))
    decreases |paths|
  {
    if paths != [] {
      var p := paths[0];
      PushFirst(src, dst, paths);
      ReceiveFirst(DirOf(src), DirOf(dst), NamesOf(paths), runs);
      OnePush(src, dst, p, runs[0]);
      PushIsLockstep(src, dst[p := src[p]], paths[1..], runs[1..]);
    }
  }

  /**
    One command of a replicated pair in bytes: the serving tracker's directory changes by the code's edits, and
    after any finished pushes of the files it names, the sibling's directory is the same.
   */
  lemma {:induction false} CommandOnBothDirectories(h: PasswordHash, n: Cluster, at: nat, cmd: Command,
                                                    runs: seq<seq<LockstepSync.Step>>)
    requires Replicated(n) && Orderly(n) && at < 2 && n[0].up && n[1].up && Proper(cmd) && TokenHash(h)
    ensures var s, o, other := n[at].state, Step(h, n[at].state, cmd), n[Sibling(at)].state.disk;
            && DistinctNames(s.disk) && DistinctNames(o.state.disk) && DistinctNames(other)
            && DirOf(o.state.disk) == AllOnBytes(DirOf(s.disk), Edits(h, s, cmd))
            && (Pushes(DirOf(o.state.disk), NamesOf(o.pushed), runs) ==>
                Receive(DirOf(o.state.disk), DirOf(other), NamesOf(o.pushed), runs) == DirOf(o.state.disk))
  {
    var s, o, other := n[at].state, Step(h, n[at].state, cmd), n[Sibling(at)].state.disk;
    StepOnBytes(h, s, cmd);
    TidyNames(other);
    StepTouches(h, s, cmd);
    PushEqualizes(s.disk, o.state.disk, o.pushed);
    if Pushes(DirOf(o.state.disk), NamesOf(o.pushed), runs) {
      PushIsLockstep(o.state.disk, other, o.pushed, runs);
    }
  }

  /** The catch-up in bytes: any finished pushes of the files that land leave the directory of the caught-up disk. */
  lemma {:induction false} CatchUpOnBytes(own: Disk, theirs: Disk, landed: set<Path>, order: seq<Path>,
                                          runs: seq<seq<LockstepSync.Step>>)
    requires Tidy(own) && Tidy(theirs) && DistinctNames(own) && DistinctNames(theirs)
    requires forall p :: p in order <==> p in theirs && p in landed
    requires Pushes(DirOf(theirs), NamesOf(order), runs)
    ensures DistinctNames(CatchUp(own, theirs, landed))
    ensures Receive(DirOf(theirs), DirOf(own), NamesOf(order), runs) == DirOf(CatchUp(own, theirs, landed))
  {
    CatchUpIsPush(own, theirs, landed, order);
    PushIsLockstep(theirs, own, order, runs);
  }
}
