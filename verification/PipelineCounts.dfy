/** The journal's counter and the length of its log under the pipeline, through I/O errors, crashes and restarts. */
module PipelineCounts {
  import opened Wal
  import opened JournalMachine
  import opened JournalSafety
  import opened JournalCounts
  import opened Pipeline
  import opened PipelineSafety
  import opened SenderSafety

  // ---------------------------------------------------------------- the ids a process holds

  function BatchIds(b: Batch): multiset<nat> {
    if b == [] then multiset{} else BatchIds(b[..|b| - 1]) + multiset{b[|b| - 1].id}
  }

  function BatchesIds(bs: seq<Batch>): multiset<nat> {
    if bs == [] then multiset{} else BatchesIds(bs[..|bs| - 1]) + BatchIds(bs[|bs| - 1])
  }

  // Every id held, as often as it is, the acknowledgement under way included.
  function HeldIds(p: Pipe): multiset<nat> {
    BatchIds(p.pushes) + BatchesIds(p.tables) + BatchesIds(p.retired) + BatchesIds(p.unsent)
    + BatchesIds(p.live.queue) + BatchIds(Pipeline.Held(p.live.worker))
    + BatchIds(p.syncs) + BatchIds(p.doneOk) + BatchIds(p.doneBad) + multiset(Todo(p))
  }

  lemma {:induction false} BatchIdsCount(b: Batch, id: nat)
    ensures BatchIds(b)[id] == InBatch(b, id)
  {
    if b != [] {
      BatchIdsCount(b[..|b| - 1], id);
    }
  }

  lemma {:induction false} BatchesIdsCount(bs: seq<Batch>, id: nat)
    ensures BatchesIds(bs)[id] == InBatches(bs, id)
  {
    if bs != [] {
      BatchesIdsCount(bs[..|bs| - 1], id);
      BatchIdsCount(bs[|bs| - 1], id);
    }
  }

  lemma {:induction false} InIdsCount(ids: seq<nat>, id: nat)
    ensures multiset(ids)[id] == InIds(ids, id)
  {
    if ids != [] {
      InIdsCount(ids[1..], id);
      assert ids == [ids[0]] + ids[1..];
    }
  }

  lemma HeldCount(p: Pipe, id: nat)
    ensures HeldIds(p)[id] == Count(p, id)
  {
    hide BatchIds, BatchesIds, InBatch, InBatches, InIds;
    BatchIdsCount(p.pushes, id);
    BatchesIdsCount(p.tables, id);
    BatchesIdsCount(p.retired, id);
    BatchesIdsCount(p.unsent, id);
    BatchesIdsCount(p.live.queue, id);
    BatchIdsCount(Pipeline.Held(p.live.worker), id);
    BatchIdsCount(p.syncs, id);
    BatchIdsCount(p.doneOk, id);
    BatchIdsCount(p.doneBad, id);
    InIdsCount(Todo(p), id);
  }

  lemma FewerIds(a: multiset<nat>, b: multiset<nat>)
    requires forall id :: a[id] <= b[id]
    ensures |a| <= |b|
  {
    assert b == a + (b - a);
  }

  lemma {:induction false} LogIdsSize<P>(log: seq<Record<P>>)
    ensures |LogIds(log)| <= |log|
  {
    if log != [] {
      var pre, r := log[..|log| - 1], log[|log| - 1];
      LogIdsSize(pre);
      assert LogIds(log) <= LogIds(pre) + {r.id} by {
        forall id | id in LogIds(log) ensures id in LogIds(pre) + {r.id} {
          var i :| 0 <= i < |log| && log[i].id == id;
          if i < |pre| {
            assert pre[i].id == id;
          }
        }
      }
      assert LogIds(pre) + {r.id} == LogIds(log) + (LogIds(pre) + {r.id} - LogIds(log));
    }
  }

  // Ids held once each, and pending, are no more than the pending records.
  lemma HeldFitsLog(p: Pipe)
    requires PipeInv(p)
    ensures |HeldIds(p)| <= |Log(p.j)|
  {
    hide Inv, Counted, Log, HeldIds, MemoryBacked, AckRule, AnswersKept, Numbered, Roles, Blank, SenderInv, Count;
    hide LogIds;
    var ids := LogIds(Log(p.j));
    forall id ensures HeldIds(p)[id] <= multiset(ids)[id] {
      HeldCount(p, id);
      assert Count(p, id) <= 1;
      if Count(p, id) > 0 {
        HeldIsPending(p, id);
      }
    }
    FewerIds(HeldIds(p), multiset(ids));
    LogIdsSize(Log(p.j));
  }

  // ---------------------------------------------------------------- the counter covers them

  ghost predicate CountInv(p: Pipe) {
    && |HeldIds(p)| <= p.j.pendingCount
    && (p.j.stage.Opened? ==> p.j.uncounted == 0)
  }

  lemma BlankHoldsNone(p: Pipe)
    requires Blank(p)
    ensures HeldIds(p) == multiset{}
  {
  }

  lemma {:induction false} ReplayedIds(log: seq<Record<nat>>)
    ensures |BatchIds(ToItems(log))| == |log|
  {
    if log != [] {
      var pre := log[..|log| - 1];
      assert ToItems(log)[..|log| - 1] == ToItems(pre);
      ReplayedIds(pre);
    }
  }

  // The steps that change neither the counter nor, but for losing some, the ids held.
  predicate Uncounting(s: Step) {
    || s.Start? || s.Die? || s.AcceptAsync? || s.AcceptSync? || s.Replayed? || s == Inner(AckNext) || s == Inner(Clear)
  }

  lemma QuietCounter(p: Pipe, s: Step)
    requires Can(p, s) && !Uncounting(s)
    ensures Do(p, s).j.pendingCount == p.j.pendingCount
    ensures Do(p, s).j.stage.Opened? ==> p.j.stage.Opened?
  {
    hide Rest, Keep, Tokens, AckSet, MaxId, WriteLine, WriteFragment;
  }

  lemma QuietIds(p: Pipe, s: Step)
    requires PipeInv(p) && Can(p, s) && !Uncounting(s)
    ensures |HeldIds(Do(p, s))| <= |HeldIds(p)|
  {
    hide Inv, Counted, HeldIds, MemoryBacked, AckRule, AnswersKept, Numbered, Blank, SenderInv, Count, Linear, Rest;
    forall id ensures HeldIds(Do(p, s))[id] <= HeldIds(p)[id] {
      HeldCount(p, id);
      HeldCount(Do(p, s), id);
      if s.Inner? {
        TodoShrinks(p, s.l, id);
      } else if s.Begin? {
        OutsideCount(p, s, id);
      } else if Inside(p, s).Some? {
        AckCount(p, s, id);
      } else {
        MoveCount(p, s, id);
      }
    }
    FewerIds(HeldIds(Do(p, s)), HeldIds(p));
  }

  lemma QuietUncounted(p: Pipe, s: Step)
    requires Inv(p.j) && Can(p, s) && !Uncounting(s) && p.j.stage.Opened? && p.j.uncounted == 0
    ensures Do(p, s).j.uncounted == 0
  {
    hide Rest, Keep, Tokens, AckSet, MaxId, WriteLine, WriteFragment, Increasing, Ids;
  }

  lemma OneMore(p: Pipe, q: Pipe, x: nat)
    requires forall id :: Count(q, id) == Count(p, id) + (if id == x then 1 else 0)
    ensures |HeldIds(q)| <= |HeldIds(p)| + 1
  {
    hide HeldIds, Count;
    var more := HeldIds(p) + multiset{x};
    forall id ensures HeldIds(q)[id] <= more[id] {
      HeldCount(p, id);
      HeldCount(q, id);
    }
    FewerIds(HeldIds(q), more);
  }

  lemma AcceptedIds(p: Pipe, s: Step)
    requires Can(p, s) && (s.AcceptAsync? || s.AcceptSync?)
    ensures |HeldIds(Do(p, s))| <= |HeldIds(p)| + 1
  {
    var q, x := Do(p, s), Current(p).id;
    hide HeldIds, Count, Do, Can, Current;
    forall id ensures Count(q, id) == Count(p, id) + (if id == x then 1 else 0) {
      AcceptCount(p, s, id);
    }
    OneMore(p, q, x);
  }

  lemma AcceptedCounter(p: Pipe, s: Step)
    requires Can(p, s) && (s.AcceptAsync? || s.AcceptSync?)
    ensures Do(p, s).j.pendingCount == p.j.pendingCount + 1
  {
    hide Rest;
  }

  lemma AckedIds(p: Pipe)
    requires Can(p, Inner(AckNext))
    ensures |HeldIds(Do(p, Inner(AckNext)))| == |HeldIds(p)| - 1
    ensures Do(p, Inner(AckNext)).j.pendingCount >= p.j.pendingCount - 1
    ensures Do(p, Inner(AckNext)).j.stage == p.j.stage && Do(p, Inner(AckNext)).j.uncounted == p.j.uncounted
  {
    hide BatchIds, BatchesIds, Can;
    AckedJournal(p);
    var todo, q := p.j.phase.todo, Do(p, Inner(AckNext));
    hide Do;
    assert todo == [todo[0]] + todo[1..];
    assert HeldIds(p) == HeldIds(q) + multiset{todo[0]};
  }

  lemma AckedJournal(p: Pipe)
    requires Can(p, Inner(AckNext))
    ensures var q := Do(p, Inner(AckNext));
            && p.j.phase.Acking? && p.j.phase.todo != [] && q == p.(j := q.j)
            && q.j.phase.Acking? && q.j.phase.todo == p.j.phase.todo[1..]
            && q.j.pendingCount >= p.j.pendingCount - 1 && q.j.stage == p.j.stage && q.j.uncounted == p.j.uncounted
  {
  }

  lemma ReplayedFits(p: Pipe)
    requires PipeInv(p) && CountInv(p) && Can(p, Step.Replayed)
    ensures CountInv(Do(p, Step.Replayed))
  {
    hide Inv, MemoryBacked, AckRule, AnswersKept, Numbered, SenderInv, Count, Linear, HeldIds, ToItems, Unacked;
    hide Log, Rest;
    var log := ReplayedRecords(p.j);
    ReplayIsLog(p.j);
    assert |log| == p.j.pendingCount;
    hide Counted, Roles;
    ReplayHolds(p);
  }

  lemma ReplayHolds(p: Pipe)
    requires Blank(p) && Can(p, Step.Replayed)
    ensures |HeldIds(Do(p, Step.Replayed))| == |ReplayedRecords(p.j)|
  {
    hide ReplayedRecords, BatchIds, BatchesIds, ToItems;
    var log := ReplayedRecords(p.j);
    assert [] + ToItems(log) == ToItems(log);
    ReplayedIds(log);
    NoIds();
    assert HeldIds(Do(p, Step.Replayed)) == BatchIds(ToItems(log));
  }

  lemma NoIds()
    ensures BatchIds([]) == multiset{} && BatchesIds([]) == multiset{}
  {
  }

  lemma ClearFits(p: Pipe)
    requires Inv(p.j) && Can(p, Inner(Clear)) && PipeInv(Do(p, Inner(Clear)))
    ensures CountInv(Do(p, Inner(Clear)))
  {
    var q := Do(p, Inner(Clear));
    assert q.j.uncounted == 0 && q.j.phase.Cleared? && Up(q.j) by {
      ClearedCounter(p);
    }
    hide Inv, HeldIds, MemoryBacked, AckRule, AnswersKept, Numbered, SenderInv, Linear, Blank, Roles, Do, Log;
    HeldFitsLog(q);
  }

  lemma ClearedCounter(p: Pipe)
    requires Inv(p.j) && Can(p, Inner(Clear))
    ensures var j := Do(p, Inner(Clear)).j;
            j.uncounted == 0 && j.phase.Cleared? && Up(j)
  {
    hide Rest, UpInv, Increasing, Ids, Tokens, PhaseInv;
  }

  lemma EndsFit(p: Pipe, s: Step)
    requires Can(p, s) && (s.Start? || s.Die?) && PipeInv(Do(p, s))
    ensures CountInv(Do(p, s))
  {
    hide Inv, Counted, HeldIds, MemoryBacked, AckRule, AnswersKept, Numbered, SenderInv, Linear, Roles, Do, Can, Blank;
    EndsCounter(p, s);
    BlankHoldsNone(Do(p, s));
  }

  lemma EndsCounter(p: Pipe, s: Step)
    requires Can(p, s) && (s.Start? || s.Die?)
    ensures var j := Do(p, s).j;
            && (j.stage.Off? || j.stage.Opened?) && j.pendingCount >= 0 && (j.stage.Opened? ==> j.uncounted == 0)
  {
    hide Rest, Unacked, Tokens, AckSet, MaxId, WriteFragment;
  }

  lemma CountedStep(p: Pipe, s: Step)
    requires PipeInv(p) && CountInv(p) && Can(p, s) && PipeInv(Do(p, s))
    ensures CountInv(Do(p, s))
  {
    hide Can, Do, HeldIds, SenderInv, Inv, Counted, Linear, MemoryBacked, AckRule, AnswersKept, Numbered, Roles, Blank;
    match s {
      case Start(_, _) => EndsFit(p, s);
      case Die(_) => EndsFit(p, s);
      case AcceptAsync => AcceptedFits(p, s);
      case AcceptSync => AcceptedFits(p, s);
      case Replayed => ReplayedFits(p);
      case Inner(AckNext) => AckedIds(p);
      case Inner(Clear) => ClearFits(p);
      case _ =>
        QuietIds(p, s);
        QuietCounter(p, s);
        if p.j.stage.Opened? {
          QuietUncounted(p, s);
        }
    }
  }

  lemma AcceptServes(p: Pipe, s: Step)
    requires PipeInv(p) && Can(p, s) && (s.AcceptAsync? || s.AcceptSync?)
    ensures !Do(p, s).j.stage.Opened?
  {
    hide SenderInv, Counted, Linear, MemoryBacked, AckRule, AnswersKept, Numbered, Roles, Blank, Rest, Tokens;
    hide Increasing;
  }

  lemma AcceptedFits(p: Pipe, s: Step)
    requires PipeInv(p) && CountInv(p) && Can(p, s) && (s.AcceptAsync? || s.AcceptSync?)
    ensures CountInv(Do(p, s))
  {
    hide PipeInv, Can, Do, HeldIds;
    AcceptedIds(p, s);
    AcceptedCounter(p, s);
    AcceptServes(p, s);
  }

  /**
   The counter covers what is held, whatever fails: in every state of every run, with I/O errors and crashes anywhere,
   the ids in the process, those still to be acknowledged included, are no more than pendingCount. So it is never
   negative.
   */
  lemma {:induction false} CounterCovers(states: seq<Pipe>, steps: seq<Step>, c: Config, n: nat)
    requires HeedfulRun(states, steps, c) && n <= |steps|
    ensures |HeldIds(states[n])| <= states[n].j.pendingCount && states[n].j.pendingCount >= 0
    ensures CountInv(states[n])
  {
    hide Can, Do, PipeInv, HeldIds;
    PipeKeeps(states, steps, c, n);
    if n == 0 {
      StartsCovered(c);
    } else {
      PipeKeeps(states, steps, c, n - 1);
      CounterCovers(states, steps, c, n - 1);
      CountedStep(states[n - 1], steps[n - 1]);
    }
  }

  lemma StartsCovered(c: Config)
    ensures CountInv(Init(c.maxPending, c.dual, c.removeQueryID))
  {
    BlankHoldsNone(Init(c.maxPending, c.dual, c.removeQueryID));
  }

  // ---------------------------------------------------------------- the log stays short

  predicate ErrorFree(p: Pipe, s: Step) {
    Inside(p, s).Some? ==> !IoError(Inside(p, s).value)
  }

  /**
   The log stays short under the pipeline: no insert is acknowledged twice, so from the start of a process on, without
   I/O errors since, the WAL of a process that has compacted once holds at most MIN_ACKS - 1 lines more than
   pendingCount says, whenever the lock is free.
   */
  lemma {:induction false} LogStaysShort(states: seq<Pipe>, steps: seq<Step>, c: Config, m: nat, n: nat)
    requires PipeCompacted(states, steps, c) && m < n <= |steps| && steps[m].Start?
    requires forall i | m <= i < n :: ErrorFree(states[i], steps[i])
    ensures var j := states[n].j;
            && Bounded(j) && j.uncounted == 0
            && (j.clean && j.phase.Idle? ==> |Tokens(j.wal)| <= j.pendingCount + MIN_ACKS - 1)
  {
    hide PipeInv, CleanInv, Can, Do, Bounded, ErrorFree, Heedful;
    CompactedIsHeedful(states, steps, c, n);
    CompactedIsHeedful(states, steps, c, n - 1);
    if m == n - 1 {
      StartsShort(states[m], steps[m]);
    } else {
      LogStaysShort(states, steps, c, m, n - 1);
      ShortStep(states[n - 1], steps[n - 1]);
    }
    ShortMeaning(states[n]);
  }

  lemma StartsShort(p: Pipe, s: Step)
    requires PipeInv(p) && Can(p, s) && s.Start?
    ensures Bounded(Do(p, s).j) && Do(p, s).j.uncounted == 0
  {
    hide SenderInv, Counted, Linear, MemoryBacked, AckRule, AnswersKept, Numbered, Roles, Blank, Rest, UpInv, Unacked;
    hide Tokens, AckSet, Increasing;
  }

  lemma ShortStep(p: Pipe, s: Step)
    requires PipeInv(p) && CleanInv(p.j) && Can(p, s) && Heedful(p, s) && ErrorFree(p, s)
    requires Bounded(p.j) && p.j.uncounted == 0
    ensures Bounded(Do(p, s).j) && Do(p, s).j.uncounted == 0
  {
    hide SenderInv, Rest, Counted, Linear, MemoryBacked, AckRule, AnswersKept, Numbered, Roles, Blank, Inv;
    hide CleanInv, Bounded;
    hide AcksPending;
    if Inside(p, s).Some? {
      AcksArePending(p, s);
      BoundStep(p.j, Inside(p, s).value);
    }
  }

  lemma ShortMeaning(p: Pipe)
    requires PipeInv(p) && CleanInv(p.j) && Bounded(p.j) && p.j.uncounted == 0
    ensures p.j.clean && p.j.phase.Idle? ==> |Tokens(p.j.wal)| <= p.j.pendingCount + MIN_ACKS - 1
  {
    hide SenderInv, Linear, MemoryBacked, AckRule, AnswersKept, Numbered, Roles, Blank, Inv, Bounded;
    if p.j.clean && p.j.phase.Idle? {
      BoundMeaning(p.j);
    }
  }

  // ---------------------------------------------------------------- the backlog stays capped

  // Within the bound, with nothing uncounted, in a process of this configuration.
  predicate CappedAt(j: St<nat>, maxPending: int, bound: int) {
    Up(j) && Capped(j, bound) && j.uncounted == 0 && j.maxPending == maxPending
  }

  lemma CapStarts(p: Pipe, s: Step)
    requires Can(p, s) && s.Start? && p.j.phase.Idle?
    ensures var j := Do(p, s).j;
            CappedAt(j, p.j.maxPending, Max(p.j.maxPending, j.pendingCount))
  {
    hide Rest, Unacked, Tokens, AckSet, MaxId;
  }

  lemma CapStep(p: Pipe, s: Step, maxPending: int, bound: int)
    requires PipeInv(p) && Can(p, s) && ErrorFree(p, s) && !s.Die?
    requires 0 < maxPending <= bound && CappedAt(p.j, maxPending, bound)
    ensures CappedAt(Do(p, s).j, maxPending, bound)
  {
    hide SenderInv, Rest, Linear, MemoryBacked, AckRule, AnswersKept, Numbered, Roles, Blank, Inv, Counted, Capped;
    hide Tokens, Keep, MaxId, WriteLine, WriteFragment, AckSet, Fits;
    if Inside(p, s).Some? {
      CappedStep(p.j, Inside(p, s).value, bound);
    }
  }

  lemma {:induction false} SameCap(states: seq<Pipe>, steps: seq<Step>, c: Config, n: nat)
    requires PipeFromEmpty(states, steps, c) && n <= |steps|
    ensures states[n].j.maxPending == c.maxPending
  {
    if n > 0 {
      hide Can, Do;
      SameCap(states, steps, c, n - 1);
      CapKept(states[n - 1], steps[n - 1]);
    }
  }

  lemma CapKept(p: Pipe, s: Step)
    requires Can(p, s)
    ensures Do(p, s).j.maxPending == p.j.maxPending
  {
    hide Rest, Tokens, Keep, MaxId, WriteLine, WriteFragment, AckSet, Fits, Unacked;
  }

  /**
   The backlog limit holds under the pipeline, with no more to ask of its callers: from the start of a process on, as
   long as no I/O error strikes, pendingCount is never above the limit or its value at the start, whichever is larger.
   */
  lemma {:induction false} BacklogStaysCapped(states: seq<Pipe>, steps: seq<Step>, c: Config, m: nat, n: nat)
    requires HeedfulRun(states, steps, c) && c.maxPending > 0 && m < n <= |steps| && steps[m].Start?
    requires forall i | m <= i < n :: ErrorFree(states[i], steps[i]) && !steps[i].Die?
    ensures states[n].j.pendingCount <= Max(c.maxPending, states[m + 1].j.pendingCount)
    ensures CappedAt(states[n].j, c.maxPending, Max(c.maxPending, states[m + 1].j.pendingCount))
  {
    hide PipeInv, Can, Do, ErrorFree, Heedful;
    PipeKeeps(states, steps, c, n - 1);
    if m == n - 1 {
      SameCap(states, steps, c, m);
      OffIsIdle(states[m], steps[m]);
      CapStarts(states[m], steps[m]);
    } else {
      BacklogStaysCapped(states, steps, c, m, n - 1);
      CapStep(states[n - 1], steps[n - 1], c.maxPending, Max(c.maxPending, states[m + 1].j.pendingCount));
    }
  }

  lemma OffIsIdle(p: Pipe, s: Step)
    requires PipeInv(p) && Can(p, s) && s.Start?
    ensures p.j.phase.Idle?
  {
    hide SenderInv, Linear, MemoryBacked, AckRule, AnswersKept, Numbered, Roles, Blank, Counted, Tokens, Increasing;
    hide Ids;
  }
}
