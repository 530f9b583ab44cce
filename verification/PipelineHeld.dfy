/** Nothing gets lost inside a process: what is pending is held somewhere, unless one of a few steps dropped it. */
module PipelineHeld {
  import opened Options
  import opened Wal
  import opened JournalMachine
  import opened JournalSafety
  import opened JournalCounts
  import Messages
  import opened Pipeline
  import opened PipelineSafety

  // ---------------------------------------------------------------- batches stay as they are

  // The batches on their way from the tables to the acknowledgement.
  function Leaving(p: Pipe): seq<Batch> {
    p.unsent + p.live.queue + [Pipeline.Held(p.live.worker)]
  }

  /** Once it has left its table a batch is never split, merged, reordered or changed; a table leaves whole. */
  lemma BatchesStayWhole(p: Pipe, s: Step, b: Batch)
    requires Can(p, s) && b in Leaving(Do(p, s)) && b != []
    ensures b in Leaving(p) || b in p.tables + p.retired || exists i | 0 <= i < |p.pushes| :: b == [p.pushes[i]]
  {
    if OfTables(s) {
      TablesLeaveWhole(p, s, b);
    } else if s.Work? {
      WorkLeavesWhole(p, s, b);
    } else {
      OthersLeaveWhole(p, s, b);
    }
  }

  lemma TablesLeaveWhole(p: Pipe, s: Step, b: Batch)
    requires Can(p, s) && OfTables(s) && b in Leaving(Do(p, s)) && b != []
    ensures b in Leaving(p) || b in p.tables + p.retired || exists i | 0 <= i < |p.pushes| :: b == [p.pushes[i]]
  {
    hide Enabled, Apply, Up, Joins, Drop;
  }

  lemma WorkLeavesWhole(p: Pipe, s: Step, b: Batch)
    requires Can(p, s) && s.Work? && b in Leaving(Do(p, s)) && b != []
    ensures b in Leaving(p)
  {
    hide Enabled, Apply, Up, WorkOn, CanWork, Messages.BatchMessage;
    if s.target.Live? {
      WorkMoves(p.live, s.sl, Messages.BatchMessage(p.removeQueryID, Inserts(p.book, Pipeline.Held(p.live.worker))));
    }
  }

  lemma OthersLeaveWhole(p: Pipe, s: Step, b: Batch)
    requires Can(p, s) && !OfTables(s) && !s.Work? && b in Leaving(Do(p, s)) && b != []
    ensures b in Leaving(p)
  {
    hide Enabled, Apply, Up, Joins, FailedNow, Messages.BatchMessage;
    if s.SyncFailed? {
      FailedMoves(p, s.i, s.status, s.arrived, s.response, s.dumped);
    }
  }

  // ---------------------------------------------------------------- every pending record is held

  // The record is on its way into the process: its line is written and its append has not returned.
  predicate Arriving(p: Pipe, r: Record<nat>) {
    p.j.phase.Written? && p.j.phase.line.parsed == Some(r)
  }

  // The step drops the id, or its append fails with the line in the file.
  predicate Drops(p: Pipe, s: Step, id: nat)
    requires Can(p, s)
  {
    || Dropped(p, s, id) > 0
    || (s == Inner(SyncFail) && p.j.phase.Written? && p.j.phase.line.parsed.Some?
        && p.j.phase.line.parsed.value.id == id)
    || (s == Inner(WriteFail(AllButNewline)) && p.j.phase.Writing? && p.j.phase.line.parsed.Some?
        && p.j.phase.line.parsed.value.id == id)
  }

  // Which steps these are.
  lemma WhoDrops(p: Pipe, s: Step, id: nat)
    requires Can(p, s) && Drops(p, s, id)
    ensures || s.Forget? || s.Die? || (s.Work? && s.target.Live? && s.sl.DumpFail?)
            || s == Inner(AckNext) || s == Inner(AckFail)
            || s == Inner(SyncFail) || s == Inner(WriteFail(AllButNewline))
  {
  }

  ghost predicate Accounted(p: Pipe, r: Record<nat>) {
    Count(p, r.id) == 1 || Arriving(p, r)
  }

  // A record that is new in the log has just been written.
  lemma LogAfter(p: Pipe, s: Step, r: Record<nat>)
    requires PipeInv(p) && Can(p, s) && Heedful(p, s) && r in Log(Do(p, s).j) && r !in Log(p.j) && !s.Die?
    ensures p.j.phase.Writing? && p.j.phase.line.parsed == Some(r)
    ensures s == Inner(Write) || s == Inner(WriteFail(AllButNewline))
  {
    hide Can, Do, PipeInv, Log, EventOf, Heedful, Inside;
    JournalPart(p, s);
    SameJournal(p, s);
    hide JournalAfter;
    if Inside(p, s).Some? {
      var l := Inside(p, s).value;
      BeginIsCareful(p, s);
      if EventOf(p.j, l).Acked? {
        WithoutMember(Log(p.j), EventOf(p.j, l).id);
      }
      assert EventOf(p.j, l) == Logged(r);
      LoggedInside(p, s, r);
    }
  }

  lemma LoggedInside(p: Pipe, s: Step, r: Record<nat>)
    requires Can(p, s) && Inside(p, s).Some? && EventOf(p.j, Inside(p, s).value) == Logged(r) && !s.Die?
    ensures p.j.phase.Writing? && p.j.phase.line.parsed == Some(r)
    ensures s == Inner(Write) || s == Inner(WriteFail(AllButNewline))
  {
    hide Joins, CanWork, Up;
  }

  lemma SameJournal(p: Pipe, s: Step)
    requires Can(p, s)
    ensures Do(p, s).j == JournalAfter(p, s)
  {
    hide Rest;
  }

  lemma ArrivingStep(p: Pipe, s: Step, r: Record<nat>)
    requires Can(p, s) && Arriving(p, r) && !Drops(p, s, r.id) && !s.Die? && !s.Start? && Inv(p.j) && Up(p.j)
    ensures Arriving(Do(p, s), r) || ((s.AcceptAsync? || s.AcceptSync?) && Current(p) == r)
  {
    SameJournal(p, s);
    hide Do, Dropped, Inv, Joins, CanWork, Tokens, Keep, MaxId;
  }

  lemma AccountedStep(p: Pipe, s: Step, r: Record<nat>)
    requires PipeInv(p) && Can(p, s) && Heedful(p, s) && !s.Die? && !s.Start? && Up(p.j)
    requires r in Log(Do(p, s).j) && (r in Log(p.j) ==> Accounted(p, r)) && !Drops(p, s, r.id)
    ensures Accounted(Do(p, s), r)
  {
    hide Can, Do, Log, Heedful, Count, Dropped, Drops, Up;
    if r !in Log(p.j) {
      LogAfter(p, s, r);
      WrittenArrives(p, s, r);
    } else {
      CountAfter(p, s, r.id);
      NotDropped(p, s, r.id);
      if Arriving(p, r) && Count(p, r.id) != 1 {
        assert Inv(p.j);
        hide PipeInv;
        ArrivingStep(p, s, r);
      }
    }
  }

  lemma NotDropped(p: Pipe, s: Step, id: nat)
    requires Can(p, s) && !Drops(p, s, id)
    ensures Dropped(p, s, id) == 0
  {
    hide Can, Dropped;
  }

  lemma WrittenArrives(p: Pipe, s: Step, r: Record<nat>)
    requires Can(p, s) && p.j.phase.Writing? && p.j.phase.line.parsed == Some(r) && !Drops(p, s, r.id)
    requires s == Inner(Write) || s == Inner(WriteFail(AllButNewline))
    ensures Arriving(Do(p, s), r)
  {
    hide WriteLine;
  }

  lemma ReplayedAccounted(p: Pipe, r: Record<nat>)
    requires PipeInv(p) && Can(p, Step.Replayed) && r in Log(Do(p, Step.Replayed).j)
    ensures Accounted(Do(p, Step.Replayed), r) && Up(Do(p, Step.Replayed).j)
  {
    hide Count, Log, ReplayedRecords, InBatch, ToItems, PipeInv, Can, Do;
    ReplayedJournal(p);
    CountAfter(p, Step.Replayed, r.id);
    ReplayedHolds(ReplayedRecords(p.j), r);
  }

  lemma ReplayedJournal(p: Pipe)
    requires PipeInv(p) && Can(p, Step.Replayed)
    ensures Log(Do(p, Step.Replayed).j) == Log(p.j) == ReplayedRecords(p.j) && Up(Do(p, Step.Replayed).j)
  {
    hide Counted, Linear, MemoryBacked, AckRule, AnswersKept, Numbered, Roles, Unacked, Inv;
    SameJournal(p, Step.Replayed);
    ReplayIsLog(p.j);
    SameFiles(p.j);
  }

  lemma SameFiles(j: St<nat>)
    requires Enabled(j, Replay)
    ensures Log(Apply(j, Replay)) == Log(j)
  {
  }

  lemma {:induction false} ReplayedHolds(log: seq<Record<nat>>, r: Record<nat>)
    requires r in log
    ensures InBatch(ToItems(log), r.id) >= 1
  {
    var pre := log[..|log| - 1];
    assert ToItems(log)[..|log| - 1] == ToItems(pre);
    assert log == pre + [log[|log| - 1]];
    if log[|log| - 1] != r {
      ReplayedHolds(pre, r);
    }
  }

  /**
   From the replay of a process on, every pending record is in exactly one place of the process, or just being accepted,
   unless a step dropped it: its removed table was forgotten, its dump failed, an acknowledgement with it was written or
   failed, or its append failed with the line in the file.
   */
  lemma {:induction false} HeldOrDropped(
      states: seq<Pipe>, steps: seq<Step>, c: Config, m: nat, n: nat, r: Record<nat>)
    requires HeedfulRun(states, steps, c) && m < n <= |steps| && steps[m].Replayed? && r in Log(states[n].j)
    requires forall i | m < i < n :: !steps[i].Die? && !steps[i].Start?
    ensures || Accounted(states[n], r)
            || exists i | m < i < n :: Can(states[i], steps[i]) && Drops(states[i], steps[i], r.id)
    ensures Up(states[n].j)
  {
    hide PipeInv, Can, Do, Drops, Accounted, Log, Up, Heedful;
    PipeKeeps(states, steps, c, n - 1);
    var p, s := states[n - 1], steps[n - 1];
    assert Can(p, s) && Heedful(p, s) && states[n] == Do(p, s);
    if m == n - 1 {
      ReplayedAccounted(p, r);
    } else {
      StaysUp(p, s);
      if r in Log(p.j) {
        HeldOrDropped(states, steps, c, m, n - 1, r);
      } else {
        UpAfterReplay(states, steps, c, m, n - 1);
      }
      if !Drops(p, s, r.id) && (r in Log(p.j) ==> Accounted(p, r)) {
        AccountedStep(p, s, r);
      }
    }
  }

  lemma StaysUp(p: Pipe, s: Step)
    requires Can(p, s) && !s.Die?
    ensures Up(p.j) ==> Up(Do(p, s).j)
  {
    hide Rest, Tokens, Keep, MaxId, AckSet, Unacked;
  }

  lemma {:induction false} UpAfterReplay(states: seq<Pipe>, steps: seq<Step>, c: Config, m: nat, n: nat)
    requires PipeFromEmpty(states, steps, c) && m < n <= |steps| && steps[m].Replayed?
    requires forall i | m < i < n :: !steps[i].Die?
    ensures Up(states[n].j)
  {
    hide Up, Do;
    StaysUp(states[n - 1], steps[n - 1]);
    if m < n - 1 {
      hide Can;
      UpAfterReplay(states, steps, c, m, n - 1);
    } else {
      ReplayIsUp(states[m]);
    }
  }

  lemma ReplayIsUp(p: Pipe)
    requires Can(p, Step.Replayed)
    ensures Up(p.j)
  {
  }
}
