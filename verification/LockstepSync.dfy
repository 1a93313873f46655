/**
  Copying one state file to the sibling tracker: the sender writes the file in blocks and reads one
  acknowledgement per block; the receiver acknowledges before every read and stops at "Sync Over".
  A written block leaves as several records, and one read returns one record, so acknowledgements
  outnumber blocks. Sender and receiver steps interleave arbitrarily over two reliable channels.
 */
module LockstepSync {

  const BLOCK := 65535
  /** The largest plaintext of one record, section 5.1 of RFC 8446. */
  const RECORD := 16384
  const OVER := "Sync Over"

  /** `s` cut into pieces of `n`, the last one possibly shorter. */
  function Pieces(s: string, n: nat): (p: seq<string>)
    requires n > 0
    ensures p == [] <==> s == ""
  {
    if s == "" then [] else if |s| <= n then [s] else [s[..n]] + Pieces(s[n..], n)
  }

  /** The records of each block of the file. */
  function Plan(content: string): seq<seq<string>> {
    var blocks := Pieces(content, BLOCK);
    seq(|blocks|, i requires 0 <= i < |blocks| => Pieces(blocks[i], RECORD))
  }

  function Concat(records: seq<string>): string {
    if records == [] then "" else records[0] + Concat(records[1..])
  }

  function Flatten(plan: seq<seq<string>>): seq<string> {
    if plan == [] then [] else plan[0] + Flatten(plan[1..])
  }

  /** What the receiver keeps of a record stream: everything before the first "Sync Over". */
  function Kept(records: seq<string>): string {
    if records == [] || records[0] == OVER then "" else records[0] + Kept(records[1..])
  }

  ghost predicate Harmless(records: seq<string>) {
    forall i :: 0 <= i < |records| ==> records[i] != "" && records[i] != OVER
  }

  /** Every block has a record and no record is empty or reads "Sync Over". */
  ghost predicate SafePlan(plan: seq<seq<string>>) {
    forall i :: 0 <= i < |plan| ==> plan[i] != [] && Harmless(plan[i])
  }

  /******* The protocol *******/

  datatype Sender =
    | AwaitHello(plan: seq<seq<string>>)
    | AtRead(rest: seq<seq<string>>)
    | Sending(current: seq<string>, rest: seq<seq<string>>)
    | AwaitAck(rest: seq<seq<string>>)
    | Finished

  datatype Receiver = Acking | Reading | Closed

  datatype State = State(sender: Sender, receiver: Receiver, records: seq<string>, acks: nat, copy: string)

  datatype Step = TakeAck | StartBlock | SendRecord | EndBlock | SendOver | GiveAck | ReadRecord

  function Init(plan: seq<seq<string>>): State {
    State(AwaitHello(plan), Acking, [], 0, "")
  }

  predicate Enabled(s: State, st: Step) {
    match st
    case TakeAck => (s.sender.AwaitHello? || s.sender.AwaitAck?) && s.acks > 0
    case StartBlock => s.sender.AtRead? && s.sender.rest != []
    case SendRecord => s.sender.Sending? && s.sender.current != []
    case EndBlock => s.sender.Sending? && s.sender.current == []
    case SendOver => s.sender.AtRead? && s.sender.rest == []
    case GiveAck => s.receiver.Acking?
    case ReadRecord => s.receiver.Reading? && s.records != []
  }

  function Apply(s: State, st: Step): State
    requires Enabled(s, st)
  {
    match st
    case TakeAck =>
      s.(sender := AtRead(if s.sender.AwaitHello? then s.sender.plan else s.sender.rest), acks := s.acks - 1)
    case StartBlock => s.(sender := Sending(s.sender.rest[0], s.sender.rest[1..]))
    case SendRecord =>
      s.(sender := Sending(s.sender.current[1..], s.sender.rest), records := s.records + [s.sender.current[0]])
    case EndBlock => s.(sender := AwaitAck(s.sender.rest))
    case SendOver => s.(sender := Finished, records := s.records + [OVER])
    case GiveAck => s.(receiver := Reading, acks := s.acks + 1)
    case ReadRecord =>
      var line, later := s.records[0], s.records[1..];
      if line == OVER then s.(receiver := Closed, records := later)
      else s.(receiver := Acking, records := later, copy := s.copy + line)
  }

  ghost predicate ValidRun(s: State, steps: seq<Step>)
    decreases |steps|
  {
    steps == [] || (Enabled(s, steps[0]) && ValidRun(Apply(s, steps[0]), steps[1..]))
  }

  ghost function Run(s: State, steps: seq<Step>): State
    requires ValidRun(s, steps)
    decreases |steps|
  {
    if steps == [] then s else Run(Apply(s, steps[0]), steps[1..])
  }

  /******* Invariant *******/

  /** Records the sender still has to send, without the terminator. */
  function Unsent(sender: Sender): seq<string> {
    match sender
    case AwaitHello(plan) => Flatten(plan)
    case AtRead(rest) => Flatten(rest)
    case Sending(current, rest) => current + Flatten(rest)
    case AwaitAck(rest) => Flatten(rest)
    case Finished => []
  }

  function Remaining(sender: Sender): seq<seq<string>> {
    match sender
    case AwaitHello(plan) => plan
    case Finished => []
    case _ => sender.rest
  }

  /** The data records in flight: all of them until the terminator is behind them. */
  function Data(s: State): seq<string> {
    if s.sender.Finished? && s.records != [] then s.records[..|s.records| - 1] else s.records
  }

  /** Acknowledgements the receiver has given or is bound to give for what is already on the wire. */
  function Credit(s: State): nat {
    s.acks + |Data(s)| + if s.receiver.Acking? then 1 else 0
  }

  ghost predicate Inv(content: string, s: State) {
    && SafePlan(Remaining(s.sender))
    && (s.sender.Sending? ==> Harmless(s.sender.current))
    && Harmless(Data(s))
    && s.copy + Concat(Data(s)) + Concat(Unsent(s.sender)) == content
    && (s.receiver.Closed? ==> s.sender.Finished? && s.records == [])
    && (s.sender.Finished? && !s.receiver.Closed? ==> s.records != [] && s.records[|s.records| - 1] == OVER)
    && (s.sender.AwaitHello? || s.sender.AwaitAck? ==> Credit(s) >= 1)
    && (s.sender.Sending? && s.sender.current == [] ==> Credit(s) >= 1)
  }

  lemma {:induction false} ConcatAppend(a: seq<string>, b: seq<string>)
    ensures Concat(a + b) == Concat(a) + Concat(b)
  {
    if a == [] {
      assert a + b == b;
    } else {
      assert (a + b)[1..] == a[1..] + b;
      ConcatAppend(a[1..], b);
    }
  }

  lemma SendKeepsInv(content: string, s: State)
    requires Inv(content, s) && Enabled(s, SendRecord)
    ensures Inv(content, Apply(s, SendRecord))
  {
    SendKeepsContent(s.copy, s.records, s.sender.current, Flatten(s.sender.rest));
  }

  lemma Regroup(a: string, b: string, c: string, d: string)
    ensures a + b + (c + d) == a + (b + c) + d
  {
  }

  lemma ConcatOne(record: string)
    ensures Concat([record]) == record
  {
    assert [record][1..] == [] && record + "" == record;
  }

  /** A record that moves from the sender to the wire. */
  lemma {:induction false} SendKeepsContent(copy: string, records: seq<string>, current: seq<string>, later: seq<string>)
    requires current != []
    ensures copy + Concat(records) + Concat(current + later)
         == copy + Concat(records + [current[0]]) + Concat(current[1..] + later)
  {
    ConcatAppend(records, [current[0]]);
    ConcatOne(current[0]);
    assert (current + later)[1..] == current[1..] + later;
    Regroup(copy, Concat(records), current[0], Concat(current[1..] + later));
  }

  lemma Reassociate(a: string, b: string, c: string, d: string)
    ensures a + (b + c) + d == (a + b) + c + d
  {
  }

  lemma ReadKeepsInv(content: string, s: State)
    requires Inv(content, s) && Enabled(s, ReadRecord)
    ensures Inv(content, Apply(s, ReadRecord))
  {
    var line := s.records[0];
    var next := Apply(s, ReadRecord);
    assert Data(s) != [] ==> Data(s)[0] == line;
    if line != OVER {
      assert Data(next) == Data(s)[1..];
      Reassociate(s.copy, line, Concat(Data(next)), Concat(Unsent(s.sender)));
    }
  }

  lemma OverKeepsInv(content: string, s: State)
    requires Inv(content, s) && Enabled(s, SendOver)
    ensures Inv(content, Apply(s, SendOver))
  {
  }

  lemma StepKeepsInv(content: string, s: State, st: Step)
    requires Inv(content, s) && Enabled(s, st)
    ensures Inv(content, Apply(s, st))
  {
    match st
    case SendRecord => SendKeepsInv(content, s);
    case ReadRecord => ReadKeepsInv(content, s);
    case SendOver => OverKeepsInv(content, s);
    case EndBlock => assert s.sender.current + Flatten(s.sender.rest) == Flatten(s.sender.rest);
    case _ =>
  }

  lemma {:induction false} RunKeepsInv(content: string, s: State, steps: seq<Step>)
    requires Inv(content, s) && ValidRun(s, steps)
    ensures Inv(content, Run(s, steps))
    decreases |steps|
  {
    if steps != [] {
      StepKeepsInv(content, s, steps[0]);
      RunKeepsInv(content, Apply(s, steps[0]), steps[1..]);
    }
  }

  /** While the copy is not over, the sender, the receiver or both can move. */
  lemma NeverStuck(content: string, s: State) returns (st: Step)
    requires Inv(content, s) && !(s.sender.Finished? && s.receiver.Closed?)
    ensures Enabled(s, st)
  {
    if s.receiver.Acking? {
      st := GiveAck;
    } else if s.receiver.Reading? && s.records != [] {
      st := ReadRecord;
    } else {
      match s.sender
      case AwaitHello(_) => st := TakeAck;
      case AwaitAck(_) => st := TakeAck;
      case AtRead(rest) => st := if rest == [] then SendOver else StartBlock;
      case Sending(current, _) => st := if current == [] then EndBlock else SendRecord;
      case Finished => assert false;
    }
  }

  /******* Flow control *******/

  function Count(steps: seq<Step>, st: Step): nat {
    if steps == [] then 0 else (if steps[0] == st then 1 else 0) + Count(steps[1..], st)
  }

  /** An acknowledgement in hand that the sender has not yet spent on a block or the terminator. */
  function Unspent(sender: Sender): nat {
    if sender.AtRead? then 1 else 0
  }

  /** The acknowledgement given for a read still to come. */
  function Promised(receiver: Receiver): nat {
    if receiver.Reading? then 1 else 0
  }

  /** Acknowledgements and records are conserved from `s` to `r`. */
  ghost predicate Balanced(s: State, steps: seq<Step>, r: State) {
    && r.acks + Count(steps, TakeAck) == s.acks + Count(steps, GiveAck)
    && Unspent(r.sender) + Count(steps, StartBlock) + Count(steps, SendOver) == Unspent(s.sender) + Count(steps, TakeAck)
    && Promised(r.receiver) + Count(steps, ReadRecord) == Promised(s.receiver) + Count(steps, GiveAck)
    && |r.records| + Count(steps, ReadRecord) == |s.records| + Count(steps, SendRecord) + Count(steps, SendOver)
  }

  lemma StepBalances(s: State, st: Step)
    requires Enabled(s, st)
    ensures Balanced(s, [st], Apply(s, st))
  {
    forall x ensures Count([st], x) == if st == x then 1 else 0 {
      assert [st][1..] == [];
    }
  }

  lemma {:induction false} RunBalances(s: State, steps: seq<Step>)
    requires ValidRun(s, steps)
    ensures Balanced(s, steps, Run(s, steps))
    decreases |steps|
  {
    if steps != [] {
      StepBalances(s, steps[0]);
      RunBalances(Apply(s, steps[0]), steps[1..]);
      BalancedTwice(s, steps, Apply(s, steps[0]), Run(s, steps));
    }
  }

  lemma BalancedTwice(s: State, steps: seq<Step>, next: State, r: State)
    requires steps != [] && Balanced(s, [steps[0]], next) && Balanced(next, steps[1..], r)
    ensures Balanced(s, steps, r)
  {
    forall x ensures Count(steps, x) == Count([steps[0]], x) + Count(steps[1..], x) {
      assert [steps[0]][1..] == [];
    }
  }

  /**
    Every block, and the terminator, is sent on an acknowledgement of its own: blocks sent never outnumber
    acknowledgements given, and those outnumber the records read by at most one.
   */
  lemma {:induction false} OneAckPerBlock(content: string, steps: seq<Step>)
    requires ValidRun(Init(Plan(content)), steps)
    ensures var s := Run(Init(Plan(content)), steps);
            && Balanced(Init(Plan(content)), steps, s)
            && Count(steps, StartBlock) + Count(steps, SendOver) + s.acks <= Count(steps, GiveAck)
            && Count(steps, GiveAck) <= Count(steps, ReadRecord) + 1
  {
    RunBalances(Init(Plan(content)), steps);
  }

  /******* Termination *******/

  function Work(plan: seq<seq<string>>): nat {
    if plan == [] then 3 else 3 * |plan[0]| + 3 + Work(plan[1..])
  }

  /** An upper bound on the steps still to come. */
  function Weight(s: State): nat {
    (match s.sender
     case AwaitHello(plan) => 1 + Work(plan)
     case AtRead(rest) => Work(rest)
     case Sending(current, rest) => 3 * |current| + 2 + Work(rest)
     case AwaitAck(rest) => 1 + Work(rest)
     case Finished => 0)
    + 2 * |s.records| + if s.receiver.Acking? then 1 else 0
  }

  lemma {:induction false} RunsAreBounded(s: State, steps: seq<Step>)
    requires ValidRun(s, steps)
    ensures |steps| + Weight(Run(s, steps)) <= Weight(s)
    decreases |steps|
  {
    if steps != [] {
      RunsAreBounded(Apply(s, steps[0]), steps[1..]);
    }
  }

  /******* What goes over the wire *******/

  lemma {:induction false} PieceShape(s: string, n: nat, i: nat)
    requires n > 0 && i < |Pieces(s, n)|
    ensures var p := Pieces(s, n)[i];
            && p != "" && s != ""
            && (|p| == n || (|p| < n && |p| % n == |s| % n && p[|p| - 1] == s[|s| - 1]))
  {
    if |s| > n && i > 0 {
      PieceShape(s[n..], n, i - 1);
      assert Pieces(s, n)[i] == Pieces(s[n..], n)[i - 1];
      ModShift(|s|, n);
    }
  }

  lemma ModShift(x: nat, n: nat)
    requires 0 < n <= x
    ensures (x - n) % n == x % n
  {
    var q, r := (x - n) / n, (x - n) % n;
    assert x - n == q * n + r;
    assert x == (q + 1) * n + r;
    var d := x / n - (q + 1);
    assert x == (x / n) * n + x % n;
    assert d * n == r - x % n by {
      assert d * n == (x / n) * n - (q + 1) * n;
    }
    assert d == 0;
  }

  lemma {:induction false} PiecesConcat(s: string, n: nat)
    requires n > 0
    ensures Concat(Pieces(s, n)) == s
  {
    if |s| > n {
      PiecesConcat(s[n..], n);
      assert Pieces(s, n)[1..] == Pieces(s[n..], n);
    } else if s != "" {
      assert Pieces(s, n)[1..] == [];
    }
  }

  ghost predicate NewlineTerminated(content: string) {
    content == "" || content[|content| - 1] == '\n'
  }

  /** No record of a newline-terminated file can be taken for the terminator. */
  lemma PlanIsSafe(content: string)
    requires NewlineTerminated(content)
    ensures SafePlan(Plan(content))
  {
    var blocks := Pieces(content, BLOCK);
    forall b | 0 <= b < |blocks| ensures Plan(content)[b] != [] && Harmless(Plan(content)[b]) {
      PieceShape(content, BLOCK, b);
      var records := Pieces(blocks[b], RECORD);
      forall i | 0 <= i < |records| ensures records[i] != "" && records[i] != OVER {
        PieceShape(blocks[b], RECORD, i);
        assert |OVER| == 9 && OVER[8] == 'r';
      }
    }
  }

  lemma {:induction false} FlattenBlocks(blocks: seq<string>)
    ensures Concat(Flatten(seq(|blocks|, i requires 0 <= i < |blocks| => Pieces(blocks[i], RECORD)))) == Concat(blocks)
  {
    if blocks != [] {
      var rest := blocks[1..];
      var plan := seq(|blocks|, i requires 0 <= i < |blocks| => Pieces(blocks[i], RECORD));
      assert plan[1..] == seq(|rest|, i requires 0 <= i < |rest| => Pieces(rest[i], RECORD));
      FlattenBlocks(rest);
      PiecesConcat(blocks[0], RECORD);
      ConcatAppend(plan[0], Flatten(plan[1..]));
    }
  }

  lemma PlanConcat(content: string)
    ensures Concat(Flatten(Plan(content))) == content
  {
    FlattenBlocks(Pieces(content, BLOCK));
    PiecesConcat(content, BLOCK);
  }

  /** What the receiver keeps is the file exactly when no record reads "Sync Over". */
  lemma {:induction false} KeptIffHarmless(records: seq<string>)
    requires forall i :: 0 <= i < |records| ==> records[i] != ""
    ensures Kept(records + [OVER]) == Concat(records) <==> Harmless(records)
  {
    if records != [] {
      var rest := records[1..];
      assert (records + [OVER])[1..] == rest + [OVER];
      KeptIffHarmless(rest);
      var n := |records[0]|;
      assert (records[0] + Kept(rest + [OVER]))[n..] == Kept(rest + [OVER]);
      assert (records[0] + Concat(rest))[n..] == Concat(rest);
      assert Harmless(records) <==> records[0] != OVER && Harmless(rest);
      assert Concat(records) != "";
    }
  }

  /******* The result *******/

  lemma InitInv(content: string)
    requires NewlineTerminated(content)
    ensures Inv(content, Init(Plan(content)))
  {
    PlanIsSafe(content);
    PlanConcat(content);
  }

  lemma InvMeans(content: string, s: State)
    requires Inv(content, s)
    ensures s.copy <= content
    ensures s.receiver.Closed? ==> s.copy == content
    ensures (forall st :: !Enabled(s, st)) ==> s.sender.Finished? && s.receiver.Closed?
  {
    assert content == s.copy + (Concat(Data(s)) + Concat(Unsent(s.sender)));
    if !(s.sender.Finished? && s.receiver.Closed?) {
      var st := NeverStuck(content, s);
    }
  }

  /** From every state of a copy the two ends can be brought to their end. */
  lemma {:induction false} CanFinish(content: string, s: State) returns (steps: seq<Step>)
    requires Inv(content, s)
    ensures ValidRun(s, steps) && Run(s, steps).receiver.Closed?
    decreases Weight(s)
  {
    steps := [];
    if !(s.sender.Finished? && s.receiver.Closed?) {
      var st := NeverStuck(content, s);
      StepKeepsInv(content, s, st);
      assert [st][1..] == [];
      RunsAreBounded(s, [st]);
      var rest := CanFinish(content, Apply(s, st));
      steps := [st] + rest;
      assert steps[1..] == rest;
    }
  }

  /**
    Copying a state file, empty or newline-terminated: every interleaving stops within a fixed number of
    steps, never blocks before both ends are done, and when they are the copy is the file. Until then the
    copy is a prefix of it.
   */
  lemma {:induction false} SyncCopiesFile(content: string, steps: seq<Step>)
    requires NewlineTerminated(content) && ValidRun(Init(Plan(content)), steps)
    ensures var s := Run(Init(Plan(content)), steps);
            && |steps| <= Weight(Init(Plan(content)))
            && s.copy <= content
            && ((forall st :: !Enabled(s, st)) ==> s.sender.Finished? && s.receiver.Closed?)
            && (s.receiver.Closed? ==> s.copy == content)
  {
    var init := Init(Plan(content));
    InitInv(content);
    RunsAreBounded(init, steps);
    RunKeepsInv(content, init, steps);
    InvMeans(content, Run(init, steps));
  }
}
