/**
  The parallel chunk download: one kernel per chunk, all writing one shared file. Each connect
  attempt, each received piece, each hang-up, each hash check and each append to the chunk map is one
  atomic step, and the steps of different kernels interleave arbitrarily.
 */
module Download {
  import opened Chunks

  /** The byte '5' that the destination file is pre-filled with. */
  const FILLER: Byte := 53

  datatype Job = Job(source: seq<Byte>, copies: seq<seq<Byte>>, digest: Digest, fullhash: string)

  datatype Phase =
    | Idle
    | Connecting
    | Receiving(at: nat, budget: int, stream: seq<Byte>)
    | Checking(whole: bool)
    | Verified
    | Done
    | GaveUp

  /** `refused` is the history of seeders whose connect failed; the code keeps only its length. */
  datatype Kernel = Kernel(phase: Phase, start: nat, seeder: nat, attempts: nat, refused: seq<nat>)

  datatype Swarm = Swarm(file: seq<Byte>, kernels: seq<Kernel>, advertised: seq<nat>)

  datatype Step =
    | Begin(k: nat, first: nat)
    | Refuse(k: nat)
    | Connect(k: nat)
    | Receive(k: nat, n: nat)
    | HangUp(k: nat)
    | Check(k: nat)
    | Advertise(k: nat)

  /******* Transitions *******/

  function Init(job: Job): Swarm {
    Swarm(seq(|job.source|, _ => FILLER),
          seq(NumChunks(|job.source|), _ => Kernel(Idle, 0, 0, 0, [])),
          [])
  }

  function Served(job: Job, seeder: nat, k: nat): seq<Byte> {
    if seeder < |job.copies| then Emission(job.copies[seeder], Offset(k)) else []
  }

  /** `fwrite` at an offset: replaces bytes in place and extends the file past its end. */
  function Write(file: seq<Byte>, at: nat, data: seq<Byte>): seq<Byte> {
    if at + |data| <= |file| then Overwrite(file, at, data)
    else if at <= |file| then file[..at] + data
    else file + seq(at - |file|, _ => 0) + data
  }

  predicate Passes(job: Job, file: seq<Byte>, k: nat) {
    HashOffset(k) <= |job.fullhash| && ChunkCheck(job.digest, file, k, job.fullhash)
  }

  predicate Enabled(job: Job, s: Swarm, st: Step) {
    st.k < |s.kernels| &&
    var phase := s.kernels[st.k].phase;
    match st
    case Begin(_, first) => phase.Idle? && first < |job.copies|
    case Refuse(_) => phase.Connecting?
    case Connect(_) => phase.Connecting?
    case Receive(_, n) => phase.Receiving? && phase.budget > 0 && 1 <= n <= BLOCK && n <= |phase.stream|
    case HangUp(_) => phase.Receiving?
    case Check(_) => phase.Checking?
    case Advertise(_) => phase.Verified?
  }

  /** A refused connect moves to the next seeder, or gives up once every attempt is spent. */
  function AfterRefusal(kn: Kernel, seeders: nat): Kernel
    requires seeders > 0
  {
    var tried := kn.(attempts := kn.attempts + 1, refused := kn.refused + [kn.seeder]);
    if tried.attempts >= seeders then tried.(phase := GaveUp)
    else tried.(seeder := (kn.seeder + 1) % seeders)
  }

  function NextKernel(job: Job, file: seq<Byte>, kn: Kernel, st: Step): Kernel
    requires |job.copies| > 0
    requires st.Receive? ==> kn.phase.Receiving? && st.n <= |kn.phase.stream|
  {
    match st
    case Begin(_, first) => Kernel(Connecting, first, first, 0, [])
    case Refuse(_) => AfterRefusal(kn, |job.copies|)
    case Connect(k) => kn.(phase := Receiving(Offset(k), CHUNK, Served(job, kn.seeder, k)))
    case Receive(_, n) =>
      kn.(phase := Receiving(kn.phase.at + n, kn.phase.budget - n, kn.phase.stream[n..]))
    case HangUp(_) =>
      kn.(phase := Checking(kn.phase.Receiving? && (kn.phase.budget <= 0 || kn.phase.stream == [])))
    case Check(k) => kn.(phase := if Passes(job, file, k) then Verified else Connecting)
    case Advertise(_) => kn.(phase := Done)
  }

  function Apply(job: Job, s: Swarm, st: Step): Swarm
    requires |job.copies| > 0
    requires Enabled(job, s, st)
  {
    var kn := s.kernels[st.k];
    Swarm(if st.Receive? then Write(s.file, kn.phase.at, kn.phase.stream[..st.n]) else s.file,
          s.kernels[st.k := NextKernel(job, s.file, kn, st)],
          if st.Advertise? then s.advertised + [st.k] else s.advertised)
  }

  ghost predicate ValidRun(job: Job, s: Swarm, steps: seq<Step>)
    requires |job.copies| > 0
    decreases |steps|
  {
    steps == [] || (Enabled(job, s, steps[0]) && ValidRun(job, Apply(job, s, steps[0]), steps[1..]))
  }

  ghost function Run(job: Job, s: Swarm, steps: seq<Step>): Swarm
    requires |job.copies| > 0
    requires ValidRun(job, s, steps)
    ensures |Run(job, s, steps).kernels| == |s.kernels|
    decreases |steps|
  {
    if steps == [] then s else Run(job, Apply(job, s, steps[0]), steps[1..])
  }

  /******* Hypotheses *******/

  /** No other byte sequence of the same length has the digest of a chunk of the source. */
  ghost predicate NoSecondPreimage(digest: Digest, source: seq<Byte>) {
    forall k: nat, b: seq<Byte> ::
      k < NumChunks(|source|) && |b| == |Chunk(source, k)| && digest(b) == digest(Chunk(source, k))
      ==> b == Chunk(source, k)
  }

  /** There are seeders and each one's copy is the source. */
  ghost predicate Complete(job: Job) {
    && |job.copies| > 0
    && (forall i :: 0 <= i < |job.copies| ==> job.copies[i] == job.source)
  }

  /** The tracker handed out the source's hash. */
  ghost predicate TrueHash(job: Job) {
    job.fullhash == FileHash(job.digest, job.source)
  }

  ghost predicate Sound(job: Job) {
    Complete(job) && TrueHash(job) && NoSecondPreimage(job.digest, job.source)
  }

  /******* Invariant *******/

  ghost predicate Agrees(file: seq<Byte>, source: seq<Byte>, lo: nat, hi: nat)
    requires |file| == |source|
  {
    forall o :: lo <= o < hi && o < |source| ==> file[o] == source[o]
  }

  ghost predicate ChunkGood(file: seq<Byte>, source: seq<Byte>, k: nat)
    requires |file| == |source|
  {
    Agrees(file, source, Offset(k), Offset(k) + CHUNK)
  }

  ghost predicate DataOk(job: Job, file: seq<Byte>, k: nat, phase: Phase)
    requires |file| == |job.source|
  {
    match phase
    case Receiving(at, budget, stream) =>
      && Offset(k) <= at
      && at + |stream| == Min(Offset(k) + EMITTED, |job.source|)
      && stream == job.source[at..at + |stream|]
      && budget == CHUNK - (at - Offset(k)) > -BLOCK
      && Agrees(file, job.source, Offset(k), at)
    case Checking(whole) => whole ==> ChunkGood(file, job.source, k)
    case Verified => Sound(job) ==> ChunkGood(file, job.source, k)
    case Done => Sound(job) ==> ChunkGood(file, job.source, k)
    case _ => true
  }

  ghost predicate FailoverOk(kn: Kernel, seeders: nat)
    requires seeders > 0
  {
    && kn.attempts == |kn.refused| <= seeders
    && (kn.phase.Idle? ==> kn.attempts == 0)
    && (kn.phase.GaveUp? ==> kn.attempts == seeders)
    && (!kn.phase.GaveUp? ==> kn.attempts < seeders)
    && (!kn.phase.Idle? ==>
        && kn.start < seeders
        && (forall j :: 0 <= j < kn.attempts ==> kn.refused[j] == (kn.start + j) % seeders)
        && (!kn.phase.GaveUp? ==> kn.seeder == (kn.start + kn.attempts) % seeders))
  }

  /** Every byte is still the filler or already the source's. */
  ghost predicate BytesOk(file: seq<Byte>, source: seq<Byte>) {
    |file| == |source| && forall o :: 0 <= o < |source| ==> file[o] == source[o] || file[o] == FILLER
  }

  ghost predicate AdvertisedOk(s: Swarm) {
    && (forall i, j :: 0 <= i < j < |s.advertised| ==> s.advertised[i] != s.advertised[j])
    && (forall k: nat :: k in s.advertised <==> k < |s.kernels| && s.kernels[k].phase.Done?)
  }

  ghost predicate Inv(job: Job, s: Swarm)
    requires |job.copies| > 0
  {
    && BytesOk(s.file, job.source)
    && |s.kernels| == NumChunks(|job.source|)
    && (forall k :: 0 <= k < |s.kernels| ==> DataOk(job, s.file, k, s.kernels[k].phase))
    && (forall k :: 0 <= k < |s.kernels| ==> FailoverOk(s.kernels[k], |job.copies|))
    && AdvertisedOk(s)
  }

  lemma ChunkGoodMeansEqual(file: seq<Byte>, source: seq<Byte>, k: nat)
    requires |file| == |source|
    ensures ChunkGood(file, source, k) <==> Chunk(file, k) == Chunk(source, k)
  {
  }

  /** A chunk that is the source's passes its check. */
  lemma GoodPasses(job: Job, file: seq<Byte>, k: nat)
    requires TrueHash(job) && |file| == |job.source| && k < NumChunks(|job.source|)
    requires ChunkGood(file, job.source, k)
    ensures Passes(job, file, k)
  {
    CheckMeansDigest(job.digest, file, job.source, k);
    ChunkGoodMeansEqual(file, job.source, k);
  }

  /** Given the hypotheses, a passing check means the chunk is the source's, and conversely. */
  lemma PassesIffGood(job: Job, file: seq<Byte>, k: nat)
    requires TrueHash(job) && NoSecondPreimage(job.digest, job.source)
    requires |file| == |job.source| && k < NumChunks(|job.source|)
    ensures Passes(job, file, k) <==> ChunkGood(file, job.source, k)
  {
    CheckMeansDigest(job.digest, file, job.source, k);
    ChunkGoodMeansEqual(file, job.source, k);
    assert |Chunk(file, k)| == |Chunk(job.source, k)|;
  }

  lemma Wrap(x: nat, n: nat)
    requires x < 2 * n
    ensures x % n == if x < n then x else x - n
  {
  }

  lemma InitInv(job: Job)
    requires |job.copies| > 0
    ensures Inv(job, Init(job))
  {
  }

  lemma FailoverStep(job: Job, file: seq<Byte>, kn: Kernel, st: Step)
    requires |job.copies| > 0 && FailoverOk(kn, |job.copies|)
    requires st.Receive? ==> kn.phase.Receiving? && st.n <= |kn.phase.stream|
    requires match st
      case Begin(_, first) => kn.phase.Idle? && first < |job.copies|
      case Refuse(_) => kn.phase.Connecting?
      case _ => !kn.phase.Idle? && !kn.phase.GaveUp?
    ensures FailoverOk(NextKernel(job, file, kn, st), |job.copies|)
  {
    var n := |job.copies|;
    match st
    case Begin(_, first) => Wrap(first, n);
    case Refuse(_) =>
      Wrap(kn.start + kn.attempts, n);
      Wrap(kn.seeder + 1, n);
      Wrap(kn.start + kn.attempts + 1, n);
    case _ =>
  }

  /** Every byte of `after` is the old one or the source's. */
  ghost predicate Improves(source: seq<Byte>, file: seq<Byte>, after: seq<Byte>) {
    && |after| == |file| == |source|
    && forall o :: 0 <= o < |source| ==> after[o] == file[o] || after[o] == source[o]
  }

  lemma WriteImproves(source: seq<Byte>, file: seq<Byte>, at: nat, n: nat)
    requires |file| == |source| && at + n <= |source|
    ensures var after := Write(file, at, source[at..at + n]);
            Improves(source, file, after) && Agrees(after, source, at, at + n)
  {
  }

  lemma DataStable(job: Job, file: seq<Byte>, after: seq<Byte>, k: nat, phase: Phase)
    requires Improves(job.source, file, after) && DataOk(job, file, k, phase)
    ensures DataOk(job, after, k, phase)
  {
  }

  /** The kernel that writes: its own region stays correct up to its new cursor. */
  lemma ReceiveKeepsOwnData(job: Job, file: seq<Byte>, k: nat, phase: Phase, n: nat)
    requires |file| == |job.source| && phase.Receiving? && DataOk(job, file, k, phase)
    requires phase.budget > 0 && n <= BLOCK && n <= |phase.stream|
    ensures var after := Write(file, phase.at, phase.stream[..n]);
            && Improves(job.source, file, after)
            && DataOk(job, after, k, Receiving(phase.at + n, phase.budget - n, phase.stream[n..]))
  {
    var source, at := job.source, phase.at;
    SliceParts(source, phase.stream, at, n);
    WriteImproves(source, file, at, n);
    var after := Write(file, at, source[at..at + n]);
    DataStable(job, file, after, k, phase);
    assert Agrees(after, source, Offset(k), at + n);
  }

  lemma OtherStepKeepsData(job: Job, s: Swarm, st: Step)
    requires Complete(job) && Enabled(job, s, st) && !st.Receive?
    requires |s.file| == |job.source| && st.k < NumChunks(|job.source|)
    requires DataOk(job, s.file, st.k, s.kernels[st.k].phase)
    requires st.Connect? ==> s.kernels[st.k].seeder < |job.copies|
    ensures DataOk(job, s.file, st.k, NextKernel(job, s.file, s.kernels[st.k], st).phase)
  {
    match st
    case Connect(k) => EmissionCovers(job.source, k);
    case Check(k) =>
      if Sound(job) {
        PassesIffGood(job, s.file, k);
      }
    case _ =>
  }

  lemma AdvertisedStep(job: Job, s: Swarm, st: Step)
    requires |job.copies| > 0 && AdvertisedOk(s) && Enabled(job, s, st)
    ensures AdvertisedOk(Apply(job, s, st))
  {
  }

  lemma OthersKeepData(job: Job, file: seq<Byte>, after: seq<Byte>, kernels: seq<Kernel>, k: nat)
    requires Improves(job.source, file, after)
    requires forall j :: 0 <= j < |kernels| ==> DataOk(job, file, j, kernels[j].phase)
    ensures forall j :: 0 <= j < |kernels| && j != k ==> DataOk(job, after, j, kernels[j].phase)
  {
    forall j | 0 <= j < |kernels| && j != k ensures DataOk(job, after, j, kernels[j].phase) {
      DataStable(job, file, after, j, kernels[j].phase);
    }
  }

  lemma StepKeepsData(job: Job, s: Swarm, st: Step)
    requires Complete(job) && Inv(job, s) && Enabled(job, s, st)
    ensures var after := Apply(job, s, st);
            && BytesOk(after.file, job.source)
            && forall j :: 0 <= j < |s.kernels| ==> DataOk(job, after.file, j, after.kernels[j].phase)
  {
    if st.Receive? {
      ReceiveKeepsOwnData(job, s.file, st.k, s.kernels[st.k].phase, st.n);
      OthersKeepData(job, s.file, Apply(job, s, st).file, s.kernels, st.k);
    } else {
      assert FailoverOk(s.kernels[st.k], |job.copies|);
      OtherStepKeepsData(job, s, st);
    }
  }

  lemma StepKeepsInv(job: Job, s: Swarm, st: Step)
    requires Complete(job) && Inv(job, s) && Enabled(job, s, st)
    ensures Inv(job, Apply(job, s, st))
  {
    StepKeepsData(job, s, st);
    FailoverStep(job, s.file, s.kernels[st.k], st);
    AdvertisedStep(job, s, st);
  }

  lemma {:induction false} RunKeepsInv(job: Job, s: Swarm, steps: seq<Step>)
    requires Complete(job) && Inv(job, s) && ValidRun(job, s, steps)
    ensures Inv(job, Run(job, s, steps))
    decreases |steps|
  {
    if steps != [] {
      StepKeepsInv(job, s, steps[0]);
      RunKeepsInv(job, Apply(job, s, steps[0]), steps[1..]);
    }
  }

  /******* What every run guarantees *******/

  /** States some interleaving reaches from the pre-filled file. */
  ghost predicate Reachable(job: Job, s: Swarm)
    requires |job.copies| > 0
  {
    exists steps :: ValidRun(job, Init(job), steps) && s == Run(job, Init(job), steps)
  }

  lemma ReachableInv(job: Job, s: Swarm)
    requires Complete(job) && Reachable(job, s)
    ensures Inv(job, s)
  {
    var steps :| ValidRun(job, Init(job), steps) && s == Run(job, Init(job), steps);
    InitInv(job);
    RunKeepsInv(job, Init(job), steps);
  }

  /**
    Kernel `k` wrote `n` bytes at `at`: inside the file, at most BLOCK - 1 bytes past its chunk, and
    byte for byte the source there.
   */
  ghost predicate WroteSource(source: seq<Byte>, before: seq<Byte>, after: seq<Byte>, k: nat, at: nat, n: nat) {
    && |before| == |source|
    && Offset(k) <= at
    && at + n <= Min(Offset(k) + CHUNK + BLOCK - 1, |source|)
    && after == Overwrite(before, at, source[at..at + n])
  }

  lemma ReceiveWritesSource(job: Job, file: seq<Byte>, phase: Phase, k: nat, n: nat)
    requires |file| == |job.source| && phase.Receiving? && DataOk(job, file, k, phase)
    requires phase.budget > 0 && n <= BLOCK && n <= |phase.stream|
    ensures WroteSource(job.source, file, Write(file, phase.at, phase.stream[..n]), k, phase.at, n)
  {
  }

  /** Whatever the interleaving, the fragmentation and the disconnects, only source bytes are written. */
  lemma WrittenBytesAreSource(job: Job, s: Swarm, k: nat, n: nat)
    requires Complete(job) && Reachable(job, s) && Enabled(job, s, Receive(k, n))
    ensures WroteSource(job.source, s.file, Apply(job, s, Receive(k, n)).file, k, s.kernels[k].phase.at, n)
  {
    ReachableInv(job, s);
    ReceiveWritesSource(job, s.file, s.kernels[k].phase, k, n);
  }

  lemma {:induction false} AdvertisedGrows(job: Job, s: Swarm, steps: seq<Step>)
    requires |job.copies| > 0 && ValidRun(job, s, steps)
    ensures s.advertised <= Run(job, s, steps).advertised
    decreases |steps|
  {
    if steps != [] {
      AdvertisedGrows(job, Apply(job, s, steps[0]), steps[1..]);
    }
  }

  /** A chunk in the map stays in the map, stays equal to the source and keeps passing its check. */
  lemma {:induction false} AdvertisedForever(job: Job, s: Swarm, more: seq<Step>, k: nat)
    requires Sound(job) && Reachable(job, s) && ValidRun(job, s, more)
    requires k in s.advertised
    ensures var later := Run(job, s, more);
            && k in later.advertised
            && Chunk(later.file, k) == Chunk(job.source, k)
            && Passes(job, later.file, k)
  {
    ReachableInv(job, s);
    RunKeepsInv(job, s, more);
    AdvertisedGrows(job, s, more);
    var later := Run(job, s, more);
    assert k in later.advertised;
    assert DataOk(job, later.file, k, later.kernels[k].phase);
    ChunkGoodMeansEqual(later.file, job.source, k);
    PassesIffGood(job, later.file, k);
  }

  lemma AllDoneIsSource(job: Job, s: Swarm)
    requires Sound(job) && Inv(job, s) && forall k :: 0 <= k < |s.kernels| ==> s.kernels[k].phase.Done?
    ensures s.file == job.source
  {
    forall k: nat | k < NumChunks(|job.source|) ensures Chunk(s.file, k) == Chunk(job.source, k) {
      assert DataOk(job, s.file, k, s.kernels[k].phase);
      ChunkGoodMeansEqual(s.file, job.source, k);
    }
    SameChunksSameFile(s.file, job.source);
  }

  /** A kernel that receives has yet to get the rest of what its current seeder's copy holds from the cursor on. */
  ghost predicate ReceivesFrom(job: Job, kn: Kernel, k: nat) {
    kn.phase.Receiving? ==>
      && kn.seeder < |job.copies| && kn.phase.at >= Offset(k)
      && var got, sent := kn.phase.at - Offset(k), Emission(job.copies[kn.seeder], Offset(k));
         got <= |sent| && kn.phase.stream == sent[got..] && kn.phase.budget == CHUNK - got
  }

  ghost predicate AllReceive(job: Job, s: Swarm)
    requires |job.copies| > 0
  {
    forall k :: 0 <= k < |s.kernels| ==> ReceivesFrom(job, s.kernels[k], k) && FailoverOk(s.kernels[k], |job.copies|)
  }

  lemma KernelReceives(job: Job, file: seq<Byte>, kn: Kernel, st: Step)
    requires |job.copies| > 0 && ReceivesFrom(job, kn, st.k) && FailoverOk(kn, |job.copies|)
    requires Enabled(job, Swarm(file, seq(st.k + 1, _ => kn), []), st)
    ensures ReceivesFrom(job, NextKernel(job, file, kn, st), st.k)
  {
    if st.Receive? {
      var got, sent := kn.phase.at - Offset(st.k), Emission(job.copies[kn.seeder], Offset(st.k));
      assert sent[got..][st.n..] == sent[got + st.n..];
    }
  }

  lemma StepReceives(job: Job, s: Swarm, st: Step)
    requires |job.copies| > 0 && AllReceive(job, s) && Enabled(job, s, st)
    ensures AllReceive(job, Apply(job, s, st))
  {
    var kn := s.kernels[st.k];
    assert ReceivesFrom(job, kn, st.k) && FailoverOk(kn, |job.copies|);
    KernelReceives(job, s.file, kn, st);
    FailoverStep(job, s.file, kn, st);
  }

  lemma {:induction false} RunReceives(job: Job, s: Swarm, steps: seq<Step>)
    requires |job.copies| > 0 && AllReceive(job, s) && ValidRun(job, s, steps)
    ensures AllReceive(job, Run(job, s, steps))
    decreases |steps|
  {
    if steps != [] {
      StepReceives(job, s, steps[0]);
      RunReceives(job, Apply(job, s, steps[0]), steps[1..]);
    }
  }

  /** Whatever the copies hold: a kernel receives the copy of the seeder it failed over to, and no other's. */
  lemma ReceivesFromItsSeeder(job: Job, s: Swarm, k: nat)
    requires |job.copies| > 0 && Reachable(job, s) && k < |s.kernels|
    ensures ReceivesFrom(job, s.kernels[k], k)
  {
    var steps :| ValidRun(job, Init(job), steps) && s == Run(job, Init(job), steps);
    RunReceives(job, Init(job), steps);
  }

  /** When no kernel gives up, the file is the source, its hash matches and each chunk is listed once. */
  lemma DownloadComplete(job: Job, s: Swarm)
    requires Sound(job) && Reachable(job, s)
    requires forall k :: 0 <= k < |s.kernels| ==> s.kernels[k].phase.Done?
    ensures s.file == job.source
    ensures FileHash(job.digest, s.file) == job.fullhash
    ensures forall k: nat :: k in s.advertised <==> k < NumChunks(|job.source|)
    ensures forall i, j :: 0 <= i < j < |s.advertised| ==> s.advertised[i] != s.advertised[j]
  {
    ReachableInv(job, s);
    AllDoneIsSource(job, s);
  }

  /** Only a transfer that was cut short can fail its check: a whole one never retries. */
  lemma MismatchOnlyAfterCut(job: Job, s: Swarm, k: nat)
    requires Complete(job) && TrueHash(job) && Reachable(job, s)
    requires Enabled(job, s, Check(k)) && !Passes(job, s.file, k)
    ensures s.kernels[k].phase == Checking(false)
  {
    ReachableInv(job, s);
    assert DataOk(job, s.file, k, s.kernels[k].phase);
    if s.kernels[k].phase.whole {
      GoodPasses(job, s.file, k);
    }
  }

  ghost predicate Distinct(s: seq<nat>) {
    forall i, j :: 0 <= i < j < |s| ==> s[i] != s[j]
  }

  lemma ConsecutiveAreDistinct(refused: seq<nat>, start: nat, n: nat)
    requires start < n && |refused| <= n
    requires forall j :: 0 <= j < |refused| ==> refused[j] == (start + j) % n
    ensures Distinct(refused)
    ensures |refused| == n ==> forall i: nat :: i < n ==> i in refused
  {
    forall i, j | 0 <= i < j < |refused| ensures refused[i] != refused[j] {
      Wrap(start + i, n);
      Wrap(start + j, n);
    }
    if |refused| == n {
      forall i: nat | i < n ensures i in refused {
        var j := if start <= i then i - start else i + n - start;
        Wrap(start + j, n);
        assert refused[j] == i;
      }
    }
  }

  lemma NextIsFresh(kn: Kernel, n: nat)
    requires n > 0 && FailoverOk(kn, n) && !kn.phase.Idle? && !kn.phase.GaveUp?
    ensures kn.seeder < n && kn.seeder !in kn.refused
  {
    Wrap(kn.start + kn.attempts, n);
    forall j | 0 <= j < kn.attempts ensures kn.refused[j] != kn.seeder {
      Wrap(kn.start + j, n);
    }
  }

  /**
    After `attempts` failed connects a kernel has failed on that many different seeders, consecutive
    from its starting one, and is on the next; it has given up exactly when every seeder refused it once.
   */
  ghost predicate FailsOver(kn: Kernel, n: nat)
    requires n > 0
  {
    && kn.attempts == |kn.refused|
    && Distinct(kn.refused)
    && (forall j :: 0 <= j < kn.attempts ==> kn.refused[j] == (kn.start + j) % n)
    && (!kn.phase.GaveUp? ==> kn.attempts < n && kn.seeder == (kn.start + kn.attempts) % n)
    && (kn.phase.GaveUp? <==> forall i: nat :: i < n ==> i in kn.refused)
  }

  lemma FailsOverFromInv(kn: Kernel, n: nat)
    requires n > 0 && FailoverOk(kn, n) && !kn.phase.Idle?
    ensures FailsOver(kn, n)
  {
    ConsecutiveAreDistinct(kn.refused, kn.start, n);
    if !kn.phase.GaveUp? {
      NextIsFresh(kn, n);
    }
  }

  lemma Failover(job: Job, s: Swarm, k: nat)
    requires Complete(job) && Reachable(job, s) && k < |s.kernels| && !s.kernels[k].phase.Idle?
    ensures FailsOver(s.kernels[k], |job.copies|)
  {
    ReachableInv(job, s);
    FailsOverFromInv(s.kernels[k], |job.copies|);
  }

  /******* Termination *******/

  /** One more than the largest potential a phase can have. */
  const COST: nat := 525317

  ghost function PhasePotential(phase: Phase): nat {
    match phase
    case Idle => COST
    case Connecting => COST - 1
    case Receiving(_, _, stream) => |stream| + 3
    case Checking(_) => 2
    case Verified => 1
    case _ => 0
  }

  ghost function Potential(kn: Kernel, seeders: nat): int {
    PhasePotential(kn.phase) + (seeders - kn.attempts) * COST
  }

  ghost function TotalPotential(kernels: seq<Kernel>, seeders: nat): int {
    if kernels == [] then 0 else Potential(kernels[0], seeders) + TotalPotential(kernels[1..], seeders)
  }

  /** A hash check that fails, the only step that sends a kernel back. */
  predicate Mismatch(job: Job, s: Swarm, st: Step) {
    st.Check? && !Passes(job, s.file, st.k)
  }

  /** COST for every mismatch of a run. */
  ghost function RetryCost(job: Job, s: Swarm, steps: seq<Step>): nat
    requires |job.copies| > 0 && ValidRun(job, s, steps)
    decreases |steps|
  {
    if steps == [] then 0
    else (if Mismatch(job, s, steps[0]) then COST else 0) + RetryCost(job, Apply(job, s, steps[0]), steps[1..])
  }

  lemma {:induction false} TotalUpdate(kernels: seq<Kernel>, k: nat, kn: Kernel, seeders: nat)
    requires k < |kernels|
    ensures TotalPotential(kernels[k := kn], seeders)
         == TotalPotential(kernels, seeders) - Potential(kernels[k], seeders) + Potential(kn, seeders)
  {
    if k == 0 {
      assert kernels[k := kn][1..] == kernels[1..];
    } else {
      assert kernels[k := kn][1..] == kernels[1..][k - 1 := kn];
      TotalUpdate(kernels[1..], k - 1, kn, seeders);
    }
  }

  lemma {:induction false} TotalBounds(kernels: seq<Kernel>, seeders: nat)
    requires forall k :: 0 <= k < |kernels| ==> kernels[k].attempts <= seeders
    ensures TotalPotential(kernels, seeders) >= 0
    ensures (forall k :: 0 <= k < |kernels| ==> kernels[k] == Kernel(Idle, 0, 0, 0, []))
            ==> TotalPotential(kernels, seeders) == |kernels| * ((seeders + 1) * COST)
  {
    if kernels != [] {
      TotalBounds(kernels[1..], seeders);
      var one := (seeders + 1) * COST;
      assert |kernels| * one == one + (|kernels| - 1) * one;
    }
  }

  lemma KernelSpendsPotential(job: Job, file: seq<Byte>, kn: Kernel, st: Step)
    requires |job.copies| > 0 && FailoverOk(kn, |job.copies|)
    requires Enabled(job, Swarm(file, seq(st.k + 1, _ => kn), []), st)
    ensures 1 + Potential(NextKernel(job, file, kn, st), |job.copies|)
         <= Potential(kn, |job.copies|) + if st.Check? && !Passes(job, file, st.k) then COST else 0
  {
  }

  lemma StepSpendsPotential(job: Job, s: Swarm, st: Step)
    requires Complete(job) && Inv(job, s) && Enabled(job, s, st)
    ensures 1 + TotalPotential(Apply(job, s, st).kernels, |job.copies|)
         <= TotalPotential(s.kernels, |job.copies|) + if Mismatch(job, s, st) then COST else 0
  {
    var n, kn := |job.copies|, s.kernels[st.k];
    assert FailoverOk(kn, n);
    KernelSpendsPotential(job, s.file, kn, st);
    TotalUpdate(s.kernels, st.k, NextKernel(job, s.file, kn, st), n);
  }

  lemma {:induction false} RunSpendsPotential(job: Job, s: Swarm, steps: seq<Step>)
    requires Complete(job) && Inv(job, s) && ValidRun(job, s, steps)
    ensures |steps| + TotalPotential(Run(job, s, steps).kernels, |job.copies|)
         <= TotalPotential(s.kernels, |job.copies|) + RetryCost(job, s, steps)
    decreases |steps|
  {
    if steps != [] {
      StepSpendsPotential(job, s, steps[0]);
      StepKeepsInv(job, s, steps[0]);
      RunSpendsPotential(job, Apply(job, s, steps[0]), steps[1..]);
    }
  }

  /** The number of steps of any run is bounded by the work at hand plus the mismatches it suffered. */
  lemma {:induction false} RunsAreBounded(job: Job, steps: seq<Step>)
    requires Complete(job) && ValidRun(job, Init(job), steps)
    ensures |steps| <= NumChunks(|job.source|) * ((|job.copies| + 1) * COST)
                       + RetryCost(job, Init(job), steps)
  {
    var init, n := Init(job), |job.copies|;
    InitInv(job);
    RunSpendsPotential(job, init, steps);
    RunKeepsInv(job, init, steps);
    var s := Run(job, init, steps);
    forall k | 0 <= k < |s.kernels| ensures s.kernels[k].attempts <= n {
      assert FailoverOk(s.kernels[k], n);
    }
    TotalBounds(s.kernels, n);
    TotalBounds(init.kernels, n);
  }

  /******* Completion stays possible *******/

  /** The step by which a kernel gets on when nothing goes wrong. */
  function Proceed(phase: Phase, k: nat): Step {
    match phase
    case Idle => Begin(k, 0)
    case Connecting => Connect(k)
    case Receiving(_, budget, stream) => if budget > 0 && stream != [] then Receive(k, 1) else HangUp(k)
    case Checking(_) => Check(k)
    case _ => Advertise(k)
  }

  ghost function Rank(phase: Phase): nat {
    match phase
    case Idle => 6
    case Connecting => 4
    case Receiving(_, _, _) => 3
    case Checking(whole) => if whole then 2 else 5
    case Verified => 1
    case _ => 0
  }

  ghost function Left(phase: Phase): nat {
    if phase.Receiving? then |phase.stream| else 0
  }

  lemma Proceeds(job: Job, s: Swarm, k: nat)
    requires Complete(job) && TrueHash(job) && Inv(job, s) && k < |s.kernels|
    requires !s.kernels[k].phase.GaveUp? && !s.kernels[k].phase.Done?
    ensures var phase, st := s.kernels[k].phase, Proceed(s.kernels[k].phase, k);
            && Enabled(job, s, st)
            && var next := Apply(job, s, st).kernels[k].phase;
               && !next.GaveUp?
               && (Rank(next) < Rank(phase) || (Rank(next) == Rank(phase) && Left(next) < Left(phase)))
  {
    var phase := s.kernels[k].phase;
    assert DataOk(job, s.file, k, phase);
    if phase == Checking(true) {
      GoodPasses(job, s.file, k);
    }
  }

  /** Kernel `k` can be brought to its end by its own steps alone. */
  lemma {:induction false} FinishKernel(job: Job, s: Swarm, k: nat) returns (steps: seq<Step>)
    requires Complete(job) && TrueHash(job) && Inv(job, s) && k < |s.kernels| && !s.kernels[k].phase.GaveUp?
    ensures ValidRun(job, s, steps)
    ensures var later := Run(job, s, steps);
            && Inv(job, later) && later.kernels[k].phase.Done?
            && forall j :: 0 <= j < |s.kernels| && j != k ==> later.kernels[j] == s.kernels[j]
    decreases Rank(s.kernels[k].phase), Left(s.kernels[k].phase)
  {
    steps := [];
    if !s.kernels[k].phase.Done? {
      var st := Proceed(s.kernels[k].phase, k);
      Proceeds(job, s, k);
      StepKeepsInv(job, s, st);
      var rest := FinishKernel(job, Apply(job, s, st), k);
      steps := [st] + rest;
      assert steps[1..] == rest;
    }
  }

  lemma {:induction false} RunFirst(job: Job, s: Swarm, st: Step, rest: seq<Step>)
    requires |job.copies| > 0 && Enabled(job, s, st) && ValidRun(job, Apply(job, s, st), rest)
    ensures ValidRun(job, s, [st] + rest) && Run(job, s, [st] + rest) == Run(job, Apply(job, s, st), rest)
  {
    assert ([st] + rest)[1..] == rest;
  }

  lemma {:induction false} RunAppend(job: Job, s: Swarm, a: seq<Step>, b: seq<Step>)
    requires |job.copies| > 0 && ValidRun(job, s, a) && ValidRun(job, Run(job, s, a), b)
    ensures ValidRun(job, s, a + b) && Run(job, s, a + b) == Run(job, Run(job, s, a), b)
    decreases |a|
  {
    if a == [] {
      assert a + b == b;
    } else {
      RunAppend(job, Apply(job, s, a[0]), a[1..], b);
      RunFirst(job, s, a[0], a[1..] + b);
      FirstApart(a, b);
    }
  }

  lemma FirstApart(a: seq<Step>, b: seq<Step>)
    requires a != []
    ensures a + b == [a[0]] + (a[1..] + b)
  {
  }

  /** The kernels below `m` can be brought to their end one after the other. */
  lemma {:induction false} FinishKernels(job: Job, s: Swarm, m: nat) returns (steps: seq<Step>)
    requires Complete(job) && TrueHash(job) && Inv(job, s) && m <= |s.kernels|
    requires forall k :: 0 <= k < |s.kernels| ==> !s.kernels[k].phase.GaveUp?
    ensures ValidRun(job, s, steps)
    ensures var later := Run(job, s, steps);
            && Inv(job, later)
            && (forall k :: 0 <= k < m ==> later.kernels[k].phase.Done?)
            && (forall k :: m <= k < |s.kernels| ==> later.kernels[k] == s.kernels[k])
  {
    steps := [];
    if m > 0 {
      var init := FinishKernels(job, s, m - 1);
      var last := FinishKernel(job, Run(job, s, init), m - 1);
      RunAppend(job, s, init, last);
      steps := init + last;
    }
  }

  /**
    Nothing is ever lost for good: from every reachable state in which no kernel has given up, the download can
    still be completed, and then the file is the source.
   */
  lemma CanStillComplete(job: Job, s: Swarm) returns (more: seq<Step>)
    requires Sound(job) && Reachable(job, s)
    requires forall k :: 0 <= k < |s.kernels| ==> !s.kernels[k].phase.GaveUp?
    ensures ValidRun(job, s, more)
    ensures var later := Run(job, s, more);
            && later.file == job.source
            && forall k :: 0 <= k < |s.kernels| ==> later.kernels[k].phase.Done?
  {
    ReachableInv(job, s);
    more := FinishKernels(job, s, |s.kernels|);
    AllDoneIsSource(job, Run(job, s, more));
  }

  /******* One kernel, as the code runs it *******/

  lemma ImprovesTwice(source: seq<Byte>, a: seq<Byte>, b: seq<Byte>, c: seq<Byte>)
    requires Improves(source, a, b) && Improves(source, b, c)
    ensures Improves(source, a, c)
  {
  }

  /**
    One transfer of chunk `k` from a seeder over a connection that is lost after `arrives` bytes, fragmented
    arbitrarily, and its check. What arrives of the chunk is in the file afterwards.
   */
  method FetchChunk(job: Job, k: nat, seeder: nat, file: array<Byte>, arrives: nat) returns (ok: bool, cut: bool)
    requires k < NumChunks(|job.source|) && seeder < |job.copies| && job.copies[seeder] == job.source
    requires file.Length == |job.source|
    modifies file
    ensures Improves(job.source, old(file[..]), file[..])
    ensures Agrees(file[..], job.source, Offset(k), Offset(k) + Min(arrives, |Chunk(job.source, k)|))
    ensures cut <==> arrives < |Chunk(job.source, k)|
    ensures ok <==> Passes(job, file[..], k)
    ensures !cut && TrueHash(job) ==> ok
    ensures ok && TrueHash(job) && NoSecondPreimage(job.digest, job.source) ==> Chunk(file[..], k) == Chunk(job.source, k)
  {
    var stream := TransferFunction(job.copies[seeder], Offset(k));
    EmissionCovers(job.source, k);
    ghost var before, source, at := file[..], job.source, Offset(k);
    var written;
    written, cut := ReceiveLoop(file, Offset(k), stream, Min(arrives, |stream|));
    SliceParts(source, stream, at, written);
    WriteImproves(source, before, at, written);
    assert file[..] == Write(before, at, source[at..at + written]);
    ok := Passes(job, file[..], k);
    if !cut && TrueHash(job) {
      assert ChunkGood(file[..], source, k);
      GoodPasses(job, file[..], k);
    }
    if TrueHash(job) && NoSecondPreimage(job.digest, job.source) {
      PassesIffGood(job, file[..], k);
      ChunkGoodMeansEqual(file[..], source, k);
    }
  }

  /** How one connect goes: refused, or a connection that is lost after `arrives` bytes. */
  datatype Attempt = Refused | Connected(arrives: nat)

  function Refusals(env: seq<Attempt>): nat {
    if env == [] then 0 else Refusals(env[..|env| - 1]) + if env[|env| - 1].Refused? then 1 else 0
  }

  lemma RefusalsSnoc(env: seq<Attempt>, i: nat)
    requires i < |env|
    ensures Refusals(env[..i + 1]) == Refusals(env[..i]) + if env[i].Refused? then 1 else 0
  {
    assert env[..i + 1][..i] == env[..i];
  }

  /** The same, as one more improvement of the file as it was at `base`. */
  method FetchOnto(job: Job, k: nat, seeder: nat, file: array<Byte>, arrives: nat, ghost base: seq<Byte>) returns (ok: bool)
    requires k < NumChunks(|job.source|) && seeder < |job.copies| && job.copies[seeder] == job.source
    requires file.Length == |job.source| && Improves(job.source, base, file[..])
    modifies file
    ensures Improves(job.source, base, file[..])
    ensures ok ==> Passes(job, file[..], k)
    ensures arrives >= |Chunk(job.source, k)| && TrueHash(job) ==> ok
    ensures ok && TrueHash(job) && NoSecondPreimage(job.digest, job.source) ==> Chunk(file[..], k) == Chunk(job.source, k)
  {
    ghost var before := file[..];
    var cut;
    ok, cut := FetchChunk(job, k, seeder, file, arrives);
    ImprovesTwice(job.source, base, before, file[..]);
  }

  /** Over none of the first `used` connections would `size` bytes arrive. */
  ghost predicate NoneWhole(env: seq<Attempt>, used: nat, size: nat)
    requires used <= |env|
  {
    forall i :: 0 <= i < used && env[i].Connected? ==> env[i].arrives < size
  }

  lemma NoneWholeNext(env: seq<Attempt>, used: nat, size: nat)
    requires used < |env|
    ensures NoneWhole(env, used, size) && (env[used].Connected? ==> env[used].arrives < size)
            ==> NoneWhole(env, used + 1, size)
  {
  }

  /** Every seeder that the kernel would reach, after the refusals before it, has the source. */
  ghost predicate ReachesComplete(job: Job, first: nat, env: seq<Attempt>)
    requires |job.copies| > 0
  {
    forall i :: 0 <= i < |env| && env[i].Connected? && Refusals(env[..i]) < |job.copies| ==>
      job.copies[(first + Refusals(env[..i])) % |job.copies|] == job.source
  }

  /** The seeder whose turn it is after so many refusals. */
  function Turn(first: nat, attempts: nat, n: nat): (seeder: nat)
    requires first < n
    ensures seeder < n
  {
    if attempts == 0 then first
    else if Turn(first, attempts - 1, n) + 1 == n then 0 else Turn(first, attempts - 1, n) + 1
  }

  lemma {:induction false} TurnIs(first: nat, attempts: nat, n: nat)
    requires first < n && attempts < n
    ensures Turn(first, attempts, n) == (first + attempts) % n
  {
    if attempts == 0 {
      Wrap(first, n);
    } else {
      TurnIs(first, attempts - 1, n);
      Wrap(first + attempts - 1, n);
      Wrap(first + attempts, n);
    }
  }

  /** After `used` connects with `attempts` refusals, the kernel has not given up and is on this seeder. */
  ghost predicate OnTurn(env: seq<Attempt>, used: nat, first: nat, n: nat, attempts: nat, seeder: nat) {
    used <= |env| && attempts == Refusals(env[..used]) && first < n && attempts < n && seeder == Turn(first, attempts, n)
  }

  lemma FirstTurn(env: seq<Attempt>, first: nat, n: nat)
    requires first < n
    ensures OnTurn(env, 0, first, n, 0, first)
  {
  }

  lemma RefusedTurn(env: seq<Attempt>, used: nat, first: nat, n: nat, attempts: nat, seeder: nat)
    requires OnTurn(env, used, first, n, attempts, seeder) && used < |env| && env[used].Refused?
    ensures Refusals(env[..used + 1]) == attempts + 1
    ensures attempts + 1 < n ==> OnTurn(env, used + 1, first, n, attempts + 1, (seeder + 1) % n)
  {
    RefusalsSnoc(env, used);
    Wrap(seeder + 1, n);
  }

  lemma ConnectedTurn(job: Job, env: seq<Attempt>, used: nat, first: nat, attempts: nat, seeder: nat)
    requires |job.copies| > 0 && OnTurn(env, used, first, |job.copies|, attempts, seeder)
    requires used < |env| && env[used].Connected? && ReachesComplete(job, first, env)
    ensures OnTurn(env, used + 1, first, |job.copies|, attempts, seeder)
    ensures seeder < |job.copies| && job.copies[seeder] == job.source
  {
    RefusalsSnoc(env, used);
    TurnIs(first, attempts, |job.copies|);
  }

  /** One round of the loop: a refusal moves on to the next seeder, a connection fetches and checks the chunk. */
  method TryOnce(job: Job, k: nat, ghost first: nat, file: array<Byte>, env: seq<Attempt>, used: nat, attempts: nat,
                 seeder: nat, ghost base: seq<Byte>) returns (ok: bool, attempts': nat, seeder': nat)
    requires k < NumChunks(|job.source|) && |job.copies| > 0 && ReachesComplete(job, first, env)
    requires used < |env| && OnTurn(env, used, first, |job.copies|, attempts, seeder)
    requires file.Length == |job.source| && Improves(job.source, base, file[..])
    modifies file
    ensures Improves(job.source, base, file[..])
    ensures attempts' == Refusals(env[..used + 1]) <= |job.copies|
    ensures attempts' < |job.copies| ==> OnTurn(env, used + 1, first, |job.copies|, attempts', seeder')
    ensures attempts' == |job.copies| ==> !ok && env[used].Refused?
    ensures ok ==> env[used].Connected? && Passes(job, file[..], k)
    ensures ok && TrueHash(job) && NoSecondPreimage(job.digest, job.source) ==> Chunk(file[..], k) == Chunk(job.source, k)
    ensures !ok && TrueHash(job) && env[used].Connected? ==> env[used].arrives < |Chunk(job.source, k)|
  {
    if env[used].Refused? {
      RefusedTurn(env, used, first, |job.copies|, attempts, seeder);
      ok, attempts', seeder' := false, attempts + 1, seeder;
      if attempts' < |job.copies| {
        seeder' := (seeder + 1) % |job.copies|;
      }
    } else {
      ConnectedTurn(job, env, used, first, attempts, seeder);
      attempts', seeder' := attempts, seeder;
      ok := FetchOnto(job, k, seeder, file, env[used].arrives, base);
    }
  }

  /** The loop itself, with the seeder counted in turns. */
  method RetryLoop(job: Job, k: nat, first: nat, file: array<Byte>, env: seq<Attempt>)
    returns (done: bool, attempts: nat, seeder: nat, used: nat)
    requires k < NumChunks(|job.source|) && first < |job.copies| && ReachesComplete(job, first, env)
    requires file.Length == |job.source|
    modifies file
    ensures Improves(job.source, old(file[..]), file[..])
    ensures done ==> Passes(job, file[..], k)
    ensures done && TrueHash(job) && NoSecondPreimage(job.digest, job.source) ==>
            Chunk(file[..], k) == Chunk(job.source, k)
    ensures used <= |env| && attempts == Refusals(env[..used]) <= |job.copies|
    ensures attempts < |job.copies| ==> seeder == Turn(first, attempts, |job.copies|)
    ensures done ==> used > 0 && env[used - 1].Connected? && attempts < |job.copies|
    ensures !done ==> used == |env| || attempts == |job.copies|
    ensures attempts == |job.copies| ==> used > 0 && env[used - 1].Refused?
    ensures TrueHash(job) ==> NoneWhole(env, if done then used - 1 else used, |Chunk(job.source, k)|)
  {
    var n := |job.copies|;
    ghost var base, size := file[..], |Chunk(job.source, k)|;
    done, attempts, seeder, used := false, 0, first, 0;
    FirstTurn(env, first, n);
    while used < |env|
      invariant OnTurn(env, used, first, n, attempts, seeder)
      invariant Improves(job.source, base, file[..])
      invariant !done && (TrueHash(job) ==> NoneWhole(env, used, size))
    {
      NoneWholeNext(env, used, size);
      done, attempts, seeder := TryOnce(job, k, first, file, env, used, attempts, seeder, base);
      used := used + 1;
      if done || attempts >= n {
        break;
      }
    }
  }

  /**
    The loop of one kernel against an environment in which the i-th connect goes as `env[i]` says; `used` of
    them happen. It returns when the chunk passes its check, when every seeder has refused, or when the
    environment ends; and a connection over which the whole chunk arrives is always the last one.
   */
  method DownloadKernel(job: Job, k: nat, first: nat, file: array<Byte>, env: seq<Attempt>)
    returns (done: bool, attempts: nat, seeder: nat, used: nat)
    requires k < NumChunks(|job.source|) && first < |job.copies| && ReachesComplete(job, first, env)
    requires file.Length == |job.source|
    modifies file
    ensures Improves(job.source, old(file[..]), file[..])
    ensures done ==> Passes(job, file[..], k)
    ensures done && TrueHash(job) && NoSecondPreimage(job.digest, job.source) ==>
            Chunk(file[..], k) == Chunk(job.source, k)
    ensures used <= |env| && attempts == Refusals(env[..used]) <= |job.copies|
    ensures attempts < |job.copies| ==> seeder == (first + attempts) % |job.copies|
    ensures done ==> used > 0 && env[used - 1].Connected? && attempts < |job.copies|
    ensures !done ==> used == |env| || attempts == |job.copies|
    ensures attempts == |job.copies| ==> used > 0 && env[used - 1].Refused?
    ensures TrueHash(job) ==> NoneWhole(env, if done then used - 1 else used, |Chunk(job.source, k)|)
  {
    done, attempts, seeder, used := RetryLoop(job, k, first, file, env);
    if attempts < |job.copies| {
      TurnIs(first, attempts, |job.copies|);
    }
  }
}
