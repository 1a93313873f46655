/** `GetChunks`: one thread per chunk, created in batches and joined before the call returns. */
module Dispatch {

  datatype Event = Created(chunk: nat, seeder: int) | Joined(chunk: nat)

  const SLOTS := 1000
  const BATCH := 50

  /** The (chunk, seeder) pairs of the threads created so far, in order. */
  function Started(log: seq<Event>): seq<(nat, int)> {
    if log == [] then []
    else
      var last := log[|log| - 1];
      Started(log[..|log| - 1]) + if last.Created? then [(last.chunk, last.seeder)] else []
  }

  /** The chunks whose threads were joined (and their metadata freed) so far, in order. */
  function Finished(log: seq<Event>): seq<nat> {
    if log == [] then []
    else
      var last := log[|log| - 1];
      Finished(log[..|log| - 1]) + if last.Joined? then [last.chunk] else []
  }

  /** The seeder chunk `i` starts from: round robin, or the choice made for it. */
  function SeederFor(i: nat, nseeders: nat, choose: bool, choices: seq<int>): int
    requires nseeders > 0 && (choose ==> i < |choices|)
  {
    if choose then choices[i] else i % nseeders
  }

  function Assignment(n: nat, nseeders: nat, choose: bool, choices: seq<int>): seq<(nat, int)>
    requires nseeders > 0 && (choose ==> n <= |choices|)
  {
    seq(n, i requires 0 <= i < n => (i, SeederFor(i, nseeders, choose, choices)))
  }

  function Upto(n: nat): seq<nat> {
    seq(n, i => i)
  }

  /** After every event of the log there are between 0 and BATCH + 1 threads not yet joined. */
  ghost predicate Bounded(log: seq<Event>) {
    && (log == [] || Bounded(log[..|log| - 1]))
    && 0 <= |Started(log)| - |Finished(log)| <= BATCH + 1
  }

  lemma {:induction false} Snoc(log: seq<Event>, e: Event)
    ensures Started(log + [e]) == Started(log) + if e.Created? then [(e.chunk, e.seeder)] else []
    ensures Finished(log + [e]) == Finished(log) + if e.Joined? then [e.chunk] else []
    ensures Bounded(log) && 0 <= |Started(log + [e])| - |Finished(log + [e])| <= BATCH + 1 ==> Bounded(log + [e])
  {
  }

  lemma NextRoundRobin(i: nat, m: nat)
    requires m > 0
    ensures (i % m + 1) % m == (i + 1) % m
    ensures (i + 1) / m == i / m + if i % m + 1 == m then 1 else 0
    ensures (i + 1) % m == if i % m + 1 == m then 0 else i % m + 1
  {
    var q, r := i / m, i % m;
    assert i == q * m + r;
    if r + 1 == m {
      assert i + 1 == (q + 1) * m;
      DivUnique(i + 1, m, q + 1, 0);
      DivUnique(m, m, 1, 0);
    } else {
      DivUnique(i + 1, m, q, r + 1);
      DivUnique(r + 1, m, 0, r + 1);
    }
  }

  lemma DivUnique(x: nat, m: nat, q: nat, r: nat)
    requires m > 0 && r < m && x == q * m + r
    ensures x / m == q && x % m == r
  {
    var d := x / m - q;
    assert x == (x / m) * m + x % m;
    assert d * m == r - x % m by {
      assert d * m == (x / m) * m - q * m;
    }
    assert d == 0;
  }

  lemma AssignmentSnoc(n: nat, nseeders: nat, choose: bool, choices: seq<int>)
    requires nseeders > 0 && (choose ==> n < |choices|)
    ensures Assignment(n + 1, nseeders, choose, choices)
         == Assignment(n, nseeders, choose, choices) + [(n, SeederFor(n, nseeders, choose, choices))]
  {
  }

  /** The value of the round-robin counter before chunk `i` is dispatched. */
  function CounterAt(i: nat, nseeders: nat, choose: bool): nat
    requires nseeders > 0
  {
    if choose then 0 else i % nseeders
  }

  method PickSeeder(i: nat, ncounter: nat, nseeders: nat, choose: bool, choices: seq<int>)
    returns (x: int, ncounter': nat)
    requires nseeders > 0 && (choose ==> i < |choices|)
    requires ncounter == CounterAt(i, nseeders, choose)
    ensures x == SeederFor(i, nseeders, choose, choices)
    ensures ncounter' == CounterAt(i + 1, nseeders, choose)
  {
    if !choose {
      x, ncounter' := ncounter, (ncounter + 1) % nseeders;
      NextRoundRobin(i, nseeders);
    } else {
      x, ncounter' := choices[i], ncounter;
    }
  }

  /** The threads of the first `n` chunks have been created and those of the first `done` joined. */
  ghost predicate Logged(log: seq<Event>, n: nat, done: nat, nseeders: nat, choose: bool, choices: seq<int>)
    requires nseeders > 0 && (choose ==> n <= |choices|)
  {
    Started(log) == Assignment(n, nseeders, choose, choices) && Finished(log) == Upto(done) && Bounded(log)
  }

  /** The slots below `counter` hold the threads that are not yet joined. */
  ghost predicate Slotted(slots: array<nat>, counter: nat, done: nat)
    reads slots
  {
    counter <= slots.Length && forall j :: 0 <= j < counter ==> slots[j] == done + j
  }

  lemma JoinOne(log: seq<Event>, n: nat, done: nat, nseeders: nat, choose: bool, choices: seq<int>)
    requires nseeders > 0 && (choose ==> n <= |choices|) && done < n <= done + BATCH + 1
    requires Logged(log, n, done, nseeders, choose, choices)
    ensures Logged(log + [Joined(done)], n, done + 1, nseeders, choose, choices)
  {
    Snoc(log, Joined(done));
    assert Upto(done + 1) == Upto(done) + [done];
  }

  /** Joins the threads of slots 0..counter, freeing their metadata. */
  method JoinAll(slots: array<nat>, counter: nat, ghost done: nat, log: seq<Event>, ghost nseeders: nat,
                 ghost choose: bool, ghost choices: seq<int>) returns (log': seq<Event>)
    requires nseeders > 0 && (choose ==> done + counter <= |choices|)
    requires counter <= BATCH + 1 && Slotted(slots, counter, done)
    requires Logged(log, done + counter, done, nseeders, choose, choices)
    ensures Logged(log', done + counter, done + counter, nseeders, choose, choices)
  {
    log' := log;
    for j := 0 to counter
      invariant Logged(log', done + counter, done + j, nseeders, choose, choices)
    {
      JoinOne(log', done + counter, done + j, nseeders, choose, choices);
      log' := log' + [Joined(slots[j])];
    }
  }

  /** Creating the thread of chunk `i` while at most BATCH others are unjoined. */
  lemma StartThread(log: seq<Event>, i: nat, x: int, done: nat, nseeders: nat, choose: bool, choices: seq<int>)
    requires nseeders > 0 && (choose ==> i < |choices|) && x == SeederFor(i, nseeders, choose, choices)
    requires Logged(log, i, done, nseeders, choose, choices) && 0 <= i - done <= BATCH
    ensures Logged(log + [Created(i, x)], i + 1, done, nseeders, choose, choices)
  {
    Snoc(log, Created(i, x));
    AssignmentSnoc(i, nseeders, choose, choices);
  }

  /**
    Every chunk gets exactly one thread, in order and with its assigned seeder; never more than BATCH + 1
    threads are unjoined, so no slot is overrun; every thread is joined exactly once before the return.
   */
  method GetChunks(nchunks: nat, nseeders: nat, choose: bool, choices: seq<int>) returns (log: seq<Event>)
    requires nseeders > 0
    requires choose ==> |choices| == nchunks
    ensures Started(log) == Assignment(nchunks, nseeders, choose, choices)
    ensures Finished(log) == Upto(nchunks)
    ensures Bounded(log)
  {
    var slots := new nat[SLOTS](_ => 0);
    var counter: nat, ncounter: nat := 0, 0;
    log := [];
    ghost var done: nat := 0;
    for i := 0 to nchunks
      invariant counter <= BATCH && done + counter == i
      invariant Slotted(slots, counter, done)
      invariant ncounter == CounterAt(i, nseeders, choose)
      invariant Logged(log, i, done, nseeders, choose, choices)
    {
      var x;
      x, ncounter := PickSeeder(i, ncounter, nseeders, choose, choices);
      slots[counter] := i;
      StartThread(log, i, x, done, nseeders, choose, choices);
      log := log + [Created(i, x)];
      counter := (counter + 1) % 1000;
      if counter > BATCH {
        log := JoinAll(slots, counter, done, log, nseeders, choose, choices);
        done := done + counter;
        counter := 0;
      }
    }
    log := JoinAll(slots, counter, done, log, nseeders, choose, choices);
  }

  /** How many of the first `n` chunks round robin over `m` seeders gives to seeder `s`. */
  function Share(n: nat, m: nat, s: nat): nat
    requires m > 0
  {
    if n == 0 then 0 else Share(n - 1, m, s) + if SeederFor(n - 1, m, false, []) == s then 1 else 0
  }

  lemma {:induction false} ShareExact(n: nat, m: nat, s: nat)
    requires s < m
    ensures Share(n, m, s) == n / m + if s < n % m then 1 else 0
  {
    if n == 0 {
      DivUnique(0, m, 0, 0);
    } else {
      ShareExact(n - 1, m, s);
      NextRoundRobin(n - 1, m);
    }
  }

  /** Round robin is fair: any two seeders get chunk counts that differ by at most one. */
  lemma {:induction false} RoundRobinFair(n: nat, m: nat, s: nat, t: nat)
    requires s < m && t < m
    ensures -1 <= Share(n, m, s) - Share(n, m, t) <= 1
  {
    ShareExact(n, m, s);
    ShareExact(n, m, t);
  }
}
