/** From the seeders' reports to running kernels: which seeder each chunk's thread starts on. */
module Planning {
  import opened Chunks
  import opened Selection
  import opened Dispatch
  import opened ChunkNumbers
  import Download

  ghost predicate AllWhole(reports: seq<Report>) {
    forall i :: 0 <= i < |reports| ==> reports[i].Everything?
  }

  /** Some seeder reported the chunk. */
  ghost predicate HasHolder(reports: seq<Report>, nchunks: nat, c: int) {
    exists t: nat :: Holds(reports, nchunks, t, c)
  }

  ghost predicate Covered(reports: seq<Report>, nchunks: nat) {
    forall c :: 1 <= c <= nchunks ==> HasHolder(reports, nchunks, c)
  }

  /** Every thread starts on one of the seeders. */
  ghost predicate InBounds(started: seq<(nat, int)>, nseeders: nat) {
    forall i :: 0 <= i < |started| ==> 0 <= started[i].1 < nseeders
  }

  lemma StartInBoundsExactly(reports: seq<Report>, nchunks: nat, choose: bool, choices: seq<int>, x: nat)
    requires |reports| > 0 && |choices| == nchunks && x < nchunks
    requires RightChoice(reports, nchunks, x + 1, choices[x])
    ensures 0 <= SeederFor(x, |reports|, choose, choices) < |reports|
       <==> !choose || HasHolder(reports, nchunks, x + 1)
  {
    if choose && HasHolder(reports, nchunks, x + 1) {
      assert Holds(reports, nchunks, choices[x], x + 1);
    }
  }

  /** Without partial reports, or when every chunk has a holder, and only then, every thread starts on a seeder. */
  lemma StartsInBoundsExactly(reports: seq<Report>, nchunks: nat, choose: bool, choices: seq<int>)
    requires |reports| > 0 && |choices| == nchunks && (choose <==> !AllWhole(reports))
    requires forall x :: 0 <= x < nchunks ==> RightChoice(reports, nchunks, x + 1, choices[x])
    ensures InBounds(Assignment(nchunks, |reports|, choose, choices), |reports|)
       <==> AllWhole(reports) || Covered(reports, nchunks)
  {
    var started := Assignment(nchunks, |reports|, choose, choices);
    forall x | 0 <= x < nchunks
      ensures 0 <= started[x].1 < |reports| <==> !choose || HasHolder(reports, nchunks, x + 1)
    {
      StartInBoundsExactly(reports, nchunks, choose, choices, x);
    }
    if AllWhole(reports) || Covered(reports, nchunks) {
      assert InBounds(started, |reports|);
    } else {
      var c :| 1 <= c <= nchunks && !HasHolder(reports, nchunks, c);
      assert !(0 <= started[c - 1].1 < |reports|);
    }
  }

  /** How many threads start on seeder `s`. */
  function StartsOn(started: seq<(nat, int)>, s: int): nat {
    if started == [] then 0
    else StartsOn(started[..|started| - 1], s) + if started[|started| - 1].1 == s then 1 else 0
  }

  /** Any two seeders are started on equally often, up to one. */
  ghost predicate Balanced(started: seq<(nat, int)>, nseeders: nat) {
    forall s, t :: 0 <= s < nseeders && 0 <= t < nseeders ==> -1 <= StartsOn(started, s) - StartsOn(started, t) <= 1
  }

  lemma {:induction false} StartsAreShares(n: nat, m: nat, choices: seq<int>, s: nat)
    requires s < m
    ensures StartsOn(Assignment(n, m, false, choices), s) == Share(n, m, s)
  {
    if n > 0 {
      StartsAreShares(n - 1, m, choices, s);
      AssignmentSnoc(n - 1, m, false, choices);
      var init := Assignment(n - 1, m, false, choices);
      assert Assignment(n, m, false, choices)[..n - 1] == init;
    }
  }

  lemma RoundRobinBalances(n: nat, m: nat, choices: seq<int>)
    requires m > 0
    ensures Balanced(Assignment(n, m, false, choices), m)
  {
    var started := Assignment(n, m, false, choices);
    forall s, t | 0 <= s < m && 0 <= t < m ensures -1 <= StartsOn(started, s) - StartsOn(started, t) <= 1 {
      StartsAreShares(n, m, choices, s);
      StartsAreShares(n, m, choices, t);
      RoundRobinFair(n, m, s, t);
    }
  }

  /**
    `GetChunks` from the reports on: one thread per chunk in order, which starts on a seeder for every chunk
    exactly when all reports are whole or every chunk has a holder; otherwise some thread starts on number -1.
    With whole reports the seeders take turns; with partial ones each chunk starts on a holder.
   */
  method StartDownload(reports: seq<Report>, nchunks: nat, order: seq<Row>) returns (log: seq<Event>)
    requires |reports| > 0
    requires InRange(Rows(reports, nchunks), nchunks)
    requires SortedPermutation(order, Rows(reports, nchunks))
    ensures |Started(log)| == nchunks && forall k :: 0 <= k < nchunks ==> Started(log)[k].0 == k
    ensures InBounds(Started(log), |reports|) <==> AllWhole(reports) || Covered(reports, nchunks)
    ensures !AllWhole(reports) ==>
            forall k :: 0 <= k < nchunks ==> RightChoice(reports, nchunks, k + 1, Started(log)[k].1)
    ensures AllWhole(reports) ==> forall k :: 0 <= k < nchunks ==> Started(log)[k].1 == k % |reports|
    ensures AllWhole(reports) ==> Balanced(Started(log), |reports|)
  {
    var flag, seeders := CalcChunk(reports, nchunks, order);
    log := GetChunks(nchunks, |reports|, flag, seeders[..]);
    StartsInBoundsExactly(reports, nchunks, flag, seeders[..]);
    if !flag {
      RoundRobinBalances(nchunks, |reports|, seeders[..]);
    }
  }

  /******* From the seeders' chunk maps *******/

  function ReportsOf(helds: seq<ChunkMap>, filename: string): seq<Report> {
    seq(|helds|, i requires 0 <= i < |helds| => ReportOf(helds[i], filename))
  }

  /** The exchange with each seeder in turn. */
  method AskAll(helds: seq<ChunkMap>, filename: string) returns (reports: seq<Report>)
    ensures reports == ReportsOf(helds, filename)
  {
    reports := [];
    for i := 0 to |helds|
      invariant reports == ReportsOf(helds[..i], filename)
    {
      var report := AskSeeder(helds[i], filename);
      reports := reports + [report];
    }
    assert helds[..|helds|] == helds;
  }

  /** A thread starts on a seeder that has its chunk, or nobody has the chunk and it starts on number -1. */
  ghost predicate StartsOnHolder(helds: seq<ChunkMap>, filename: string, k: nat, s: int) {
    || (0 <= s < |helds| && HasChunk(helds[s], filename, k))
    || (s == -1 && forall t :: 0 <= t < |helds| ==> !HasChunk(helds[t], filename, k))
  }

  lemma HoldsMeansHas(helds: seq<ChunkMap>, filename: string, nchunks: nat, t: nat, k: nat)
    requires k < nchunks
    ensures Holds(ReportsOf(helds, filename), nchunks, t, k + 1) <==> t < |helds| && HasChunk(helds[t], filename, k)
  {
    if t < |helds| {
      ReportMeansChunks(helds[t], filename, nchunks, k);
    }
  }

  lemma RightMeansHolder(helds: seq<ChunkMap>, filename: string, nchunks: nat, k: nat, s: int)
    requires k < nchunks && RightChoice(ReportsOf(helds, filename), nchunks, k + 1, s)
    ensures StartsOnHolder(helds, filename, k, s)
  {
    if s == -1 {
      forall t | 0 <= t < |helds| ensures !HasChunk(helds[t], filename, k) {
        HoldsMeansHas(helds, filename, nchunks, t, k);
      }
    } else {
      HoldsMeansHas(helds, filename, nchunks, s, k);
    }
  }

  lemma WholeMeansHolder(helds: seq<ChunkMap>, filename: string, k: nat, s: nat)
    requires AllWhole(ReportsOf(helds, filename)) && s < |helds|
    ensures StartsOnHolder(helds, filename, k, s)
  {
    assert ReportsOf(helds, filename)[s] == ReportOf(helds[s], filename);
  }

  /** A chunk map names chunks of the file only. */
  ghost predicate NamesChunks(held: ChunkMap, filename: string, nchunks: nat) {
    filename in held ==> forall c :: c in held[filename] ==> c < nchunks
  }

  lemma NumbersInRange(held: ChunkMap, filename: string, nchunks: nat, c: int)
    requires NamesChunks(held, filename, nchunks) && c in Numbers(ReportOf(held, filename), nchunks)
    ensures 1 <= c <= nchunks
  {
    var numbers := Numbers(ReportOf(held, filename), nchunks);
    var i :| 0 <= i < |numbers| && numbers[i] == c;
    if filename in held && held[filename] != [] {
      assert numbers[i] == held[filename][i] + 1 && held[filename][i] in held[filename];
    }
  }

  lemma ReportsInRange(helds: seq<ChunkMap>, filename: string, nchunks: nat)
    requires forall t :: 0 <= t < |helds| ==> NamesChunks(helds[t], filename, nchunks)
    ensures InRange(Rows(ReportsOf(helds, filename), nchunks), nchunks)
  {
    var rows := Rows(ReportsOf(helds, filename), nchunks);
    forall i, c | 0 <= i < |rows| && c in rows[i].1 ensures 1 <= c <= nchunks {
      NumbersInRange(helds[i], filename, nchunks, c);
    }
  }

  /**
    From the seeders' chunk maps to the threads: each chunk's thread starts on a seeder that has the chunk, or on
    number -1 when nobody has it, which the kernel then uses as an index.
   */
  method AskAndStart(helds: seq<ChunkMap>, filename: string, nchunks: nat, order: seq<Row>) returns (log: seq<Event>)
    requires |helds| > 0
    requires forall t :: 0 <= t < |helds| ==> NamesChunks(helds[t], filename, nchunks)
    requires SortedPermutation(order, Rows(ReportsOf(helds, filename), nchunks))
    ensures |Started(log)| == nchunks
    ensures forall k :: 0 <= k < nchunks ==>
              Started(log)[k].0 == k && StartsOnHolder(helds, filename, k, Started(log)[k].1)
  {
    var reports := AskAll(helds, filename);
    ReportsInRange(helds, filename, nchunks);
    log := StartDownload(reports, nchunks, order);
    forall k | 0 <= k < nchunks ensures StartsOnHolder(helds, filename, k, Started(log)[k].1) {
      if AllWhole(reports) {
        WholeMeansHolder(helds, filename, k, Started(log)[k].1);
      } else {
        RightMeansHolder(helds, filename, nchunks, k, Started(log)[k].1);
      }
    }
  }

  /******* Starting the kernels *******/

  /** The first step of each kernel below `m`. */
  function Begins(started: seq<(nat, int)>, m: nat): seq<Download.Step>
    requires m <= |started| && forall i :: 0 <= i < |started| ==> started[i].1 >= 0
  {
    seq(m, i requires 0 <= i < m => Download.Begin(i, started[i].1))
  }

  /** The kernels below `m` are connecting to their first seeder and the others have not begun. */
  ghost predicate Begun(job: Download.Job, s: Download.Swarm, started: seq<(nat, int)>, m: nat)
    requires m <= |started| && forall i :: 0 <= i < |started| ==> started[i].1 >= 0
  {
    && s.file == Download.Init(job).file && s.advertised == [] && |s.kernels| == |started|
    && (forall k :: 0 <= k < m ==> s.kernels[k] == Download.Kernel(Download.Connecting, started[k].1, started[k].1, 0, []))
    && (forall k :: m <= k < |started| ==> s.kernels[k] == Download.Kernel(Download.Idle, 0, 0, 0, []))
  }

  /** Threads that start on seeders are a run of the download: each kernel connects to its own first seeder. */
  lemma {:induction false} KernelsBegin(job: Download.Job, started: seq<(nat, int)>, m: nat)
    requires |job.copies| > 0 && |started| == NumChunks(|job.source|) && m <= |started|
    requires InBounds(started, |job.copies|)
    ensures Download.ValidRun(job, Download.Init(job), Begins(started, m))
    ensures Begun(job, Download.Run(job, Download.Init(job), Begins(started, m)), started, m)
    decreases m
  {
    if m > 0 {
      KernelsBegin(job, started, m - 1);
      var init, last := Begins(started, m - 1), [Download.Begin(m - 1, started[m - 1].1)];
      var s := Download.Run(job, Download.Init(job), init);
      OneStep(job, s, last[0]);
      Download.RunAppend(job, Download.Init(job), init, last);
      assert Begins(started, m) == init + last;
    }
  }

  lemma {:induction false} OneStep(job: Download.Job, s: Download.Swarm, st: Download.Step)
    requires |job.copies| > 0 && Download.Enabled(job, s, st)
    ensures Download.ValidRun(job, s, [st]) && Download.Run(job, s, [st]) == Download.Apply(job, s, st)
  {
    assert [st][1..] == [];
  }
}
