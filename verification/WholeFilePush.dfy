/** One push of one file, from the records of one disk to the records of the other. */
module WholeFilePush {
  import opened Text
  import LockstepSync

  lemma {:induction false} RenderIsTerminated(records: seq<Record>)
    ensures LockstepSync.NewlineTerminated(Render(records))
  {
  }

  /**
    Pushing a file written by the handlers: whatever the interleaving, once the receiver stops, what it reads
    back from its copy are the sender's records; and both ends do stop.
   */
  lemma {:induction false} PushDeliversRecords(records: seq<Record>, steps: seq<LockstepSync.Step>)
    requires Clean(records)
    requires LockstepSync.ValidRun(LockstepSync.Init(LockstepSync.Plan(Render(records))), steps)
    ensures var init := LockstepSync.Init(LockstepSync.Plan(Render(records)));
            var s := LockstepSync.Run(init, steps);
            && (s.receiver.Closed? ==> Parse(s.copy) == records)
            && ((forall st :: !LockstepSync.Enabled(s, st)) ==> s.sender.Finished? && s.receiver.Closed?)
            && |steps| <= LockstepSync.Weight(init)
  {
    RenderIsTerminated(records);
    LockstepSync.SyncCopiesFile(Render(records), steps);
    ParseUndoesRender(records);
  }

  /** A run of the protocol for this file after which the receiver has stopped. */
  ghost predicate FinishedPush(content: string, steps: seq<LockstepSync.Step>) {
    var init := LockstepSync.Init(LockstepSync.Plan(content));
    LockstepSync.ValidRun(init, steps) && LockstepSync.Run(init, steps).receiver.Closed?
  }

  /** What the receiver wrote. */
  ghost function Copied(content: string, steps: seq<LockstepSync.Step>): string
    requires FinishedPush(content, steps)
  {
    LockstepSync.Run(LockstepSync.Init(LockstepSync.Plan(content)), steps).copy
  }

  /** Some run of the protocol does finish. */
  lemma PushCanFinish(records: seq<Record>) returns (steps: seq<LockstepSync.Step>)
    ensures FinishedPush(Render(records), steps)
  {
    RenderIsTerminated(records);
    LockstepSync.InitInv(Render(records));
    steps := LockstepSync.CanFinish(Render(records), LockstepSync.Init(LockstepSync.Plan(Render(records))));
  }

  lemma {:induction false} PushCopiesBytes(records: seq<Record>, steps: seq<LockstepSync.Step>)
    requires FinishedPush(Render(records), steps)
    ensures Copied(Render(records), steps) == Render(records)
  {
    RenderIsTerminated(records);
    LockstepSync.SyncCopiesFile(Render(records), steps);
  }
}
