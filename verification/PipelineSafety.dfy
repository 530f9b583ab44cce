/** What every step, and every run, of the delivery pipeline keeps. */
module PipelineSafety {
  import opened Options
  import opened Wal
  import opened JournalMachine
  import opened JournalSafety
  import opened JournalCounts
  import opened Messages
  import opened Pipeline
  import opened SenderSafety
  import DumpName
  import D = DumpDirectory

  // ---------------------------------------------------------------- counting ids

  // How often an id occurs in a batch, in a list of batches, in a list of ids.
  function InBatch(b: Batch, id: nat): nat {
    if b == [] then 0 else InBatch(b[..|b| - 1], id) + (if b[|b| - 1].id == id then 1 else 0)
  }

  function InBatches(bs: seq<Batch>, id: nat): nat {
    if bs == [] then 0 else InBatches(bs[..|bs| - 1], id) + InBatch(bs[|bs| - 1], id)
  }

  function InIds(ids: seq<nat>, id: nat): nat {
    if ids == [] then 0 else InIds(ids[1..], id) + (if ids[0] == id then 1 else 0)
  }

  function Todo(p: Pipe): seq<nat> {
    if p.j.phase.Acking? then p.j.phase.todo else []
  }

  // In how many places of the running process an id is held: goroutines, tables, flush snapshots, the live queue, its
  // worker, synchronous requests, and the acknowledgement under way.
  function Count(p: Pipe, id: nat): nat {
    InBatch(p.pushes, id) + InBatches(p.tables, id) + InBatches(p.retired, id) + InBatches(p.unsent, id)
    + InBatches(p.live.queue, id) + InBatch(Pipeline.Held(p.live.worker), id)
    + InBatch(p.syncs, id) + InBatch(p.doneOk, id) + InBatch(p.doneBad, id) + InIds(Todo(p), id)
  }

  lemma {:induction false} InBatchConcat(a: Batch, b: Batch, id: nat)
    ensures InBatch(a + b, id) == InBatch(a, id) + InBatch(b, id)
  {
    if b == [] {
      assert a + b == a;
    } else {
      InBatchConcat(a, b[..|b| - 1], id);
      assert (a + b)[..|a + b| - 1] == a + b[..|b| - 1];
    }
  }

  lemma {:induction false} InBatchesConcat(a: seq<Batch>, b: seq<Batch>, id: nat)
    ensures InBatches(a + b, id) == InBatches(a, id) + InBatches(b, id)
  {
    if b == [] {
      assert a + b == a;
    } else {
      InBatchesConcat(a, b[..|b| - 1], id);
      assert (a + b)[..|a + b| - 1] == a + b[..|b| - 1];
    }
  }

  lemma InBatchesOne(b: Batch, id: nat)
    ensures InBatches([b], id) == InBatch(b, id)
  {
    assert [b][..0] == [];
  }

  lemma InBatchOne(i: Item, id: nat)
    ensures InBatch([i], id) == if i.id == id then 1 else 0
  {
    assert [i][..0] == [];
  }

  lemma InBatchDrop(b: Batch, i: nat, id: nat)
    requires i < |b|
    ensures InBatch(b, id) == InBatch(Drop(b, i), id) + (if b[i].id == id then 1 else 0)
  {
    assert b == b[..i] + [b[i]] + b[i + 1..];
    InBatchConcat(b[..i] + [b[i]], b[i + 1..], id);
    InBatchConcat(b[..i], [b[i]], id);
    InBatchConcat(b[..i], b[i + 1..], id);
    InBatchOne(b[i], id);
  }

  lemma InBatchesDrop(bs: seq<Batch>, i: nat, id: nat)
    requires i < |bs|
    ensures InBatches(bs, id) == InBatches(Drop(bs, i), id) + InBatch(bs[i], id)
  {
    assert bs == bs[..i] + [bs[i]] + bs[i + 1..];
    InBatchesConcat(bs[..i] + [bs[i]], bs[i + 1..], id);
    InBatchesConcat(bs[..i], [bs[i]], id);
    InBatchesConcat(bs[..i], bs[i + 1..], id);
    InBatchesOne(bs[i], id);
  }

  lemma InBatchesUpdate(bs: seq<Batch>, i: nat, b: Batch, id: nat)
    requires i < |bs|
    ensures InBatches(bs[i := b], id) == InBatches(bs, id) - InBatch(bs[i], id) + InBatch(b, id)
  {
    InBatchesDrop(bs, i, id);
    InBatchesDrop(bs[i := b], i, id);
    assert Drop(bs[i := b], i) == Drop(bs, i);
  }

  lemma {:induction false} InBatchMember(b: Batch, k: nat)
    requires k < |b|
    ensures InBatch(b, b[k].id) >= 1
  {
    InBatchDrop(b, k, b[k].id);
  }

  lemma {:induction false} InIdsOf(b: Batch, id: nat)
    ensures InIds(IdsOf(b), id) == InBatch(b, id)
  {
    if b != [] {
      InIdsOf(b[1..], id);
      assert IdsOf(b)[1..] == IdsOf(b[1..]);
      assert b == [b[0]] + b[1..];
      InBatchConcat([b[0]], b[1..], id);
      InBatchOne(b[0], id);
    }
  }

  // ---------------------------------------------------------------- invariant

  // Every insert in the batch is a pending record of the journal, with its own id and content.
  ghost predicate Backed(b: Batch, log: seq<Record<nat>>) {
    forall k | 0 <= k < |b| :: Record(b[k].id, b[k].req) in log
  }

  ghost predicate AllBacked(bs: seq<Batch>, log: seq<Record<nat>>) {
    forall i | 0 <= i < |bs| :: Backed(bs[i], log)
  }

  ghost predicate MemoryBacked(p: Pipe, log: seq<Record<nat>>) {
    && Backed(p.pushes, log) && AllBacked(p.tables, log) && AllBacked(p.retired, log) && AllBacked(p.unsent, log)
    && AllBacked(p.live.queue, log) && Backed(Pipeline.Held(p.live.worker), log)
    && Backed(p.syncs, log) && Backed(p.doneOk, log) && Backed(p.doneBad, log)
  }

  // Taken by live ClickHouse, or told by a file of its dump directory or of failed/.
  function Stored(p: Pipe): set<nat> {
    StoredBy(p.live)
  }

  // Stored, or dumped in a text that does not read back.
  function Covered(p: Pipe): set<nat> {
    CoveredBy(p.live)
  }

  // An id belongs to at most one place, and never to an append that has not returned.
  ghost predicate Linear(p: Pipe) {
    && (forall id :: Count(p, id) <= 1)
    && (p.j.phase.Written? && p.j.phase.line.parsed.Some? ==> Count(p, p.j.phase.line.parsed.value.id) == 0)
  }

  // Whatever is to be acknowledged is covered, or belongs to a synchronous insert that failed.
  ghost predicate AckRule(p: Pipe) {
    && (p.live.worker.Storing? ==> Reqs(p.live.worker.b) <= Covered(p))
    && Reqs(p.doneOk) <= p.live.accepted
    && Reqs(p.doneBad) <= p.excused
    && (forall r | r in Log(p.j) && r.id in Todo(p) :: r.payload in Covered(p) + p.excused)
    && (forall i | 0 <= i < |Todo(p)| :: Todo(p)[i] in LogIds(Log(p.j)))
  }

  // An insert answered 200 is pending in the journal or covered.
  ghost predicate AnswersKept(p: Pipe) {
    forall q | q in p.answered :: q in Covered(p) || exists r | r in Log(p.j) :: r.payload == q
  }

  ghost predicate Appending(p: Pipe) {
    (p.j.phase.Writing? || p.j.phase.Written?) && p.j.phase.line.parsed.Some?
  }

  ghost predicate Numbered(p: Pipe) {
    && p.answered <= p.book.Keys && p.excused <= p.book.Keys && p.replies <= p.book.Keys
    && Reqs(p.syncs) <= p.book.Keys && Reqs(p.doneOk) <= p.book.Keys
    && p.excused * p.answered <= Covered(p)
    && Reqs(p.syncs) * p.answered <= Covered(p)
    && p.replies <= p.live.accepted
    && (Appending(p) ==>
          p.j.phase.line.parsed.value.payload
            in p.book.Keys - p.answered - p.excused - p.replies - Reqs(p.syncs) - Reqs(p.doneOk))
  }

  // A process that has not replayed holds nothing.
  ghost predicate Blank(p: Pipe) {
    && p.pushes == [] && p.tables == [] && p.retired == [] && p.unsent == [] && p.live.queue == []
    && p.live.worker.Resting? && p.syncs == [] && p.doneOk == [] && p.doneBad == [] && Todo(p) == []
  }

  ghost predicate PipeInv(p: Pipe) {
    && Inv(p.j) && Counted(p.j)
    && Linear(p)
    && MemoryBacked(p, Log(p.j))
    && AckRule(p)
    && AnswersKept(p)
    && Numbered(p)
    && Roles(p)
    && SenderInv(p.live)
    && (p.j.stage.Off? || p.j.stage.Opened? ==> Blank(p))
  }

  // ---------------------------------------------------------------- the journal inside

  lemma AcksArePending(p: Pipe, s: Step)
    requires PipeInv(p) && Can(p, s) && Inside(p, s).Some?
    ensures AcksPending(p.j, Inside(p, s).value)
  {
    hide Inv, Counted, Log, Linear, MemoryBacked, AnswersKept, Numbered, Blank, Roles;
    if Todo(p) != [] {
      assert Todo(p)[0] in LogIds(Log(p.j));
    }
  }

  lemma BeginIsCareful(p: Pipe, s: Step)
    requires Can(p, s) && Heedful(p, s) && Inside(p, s).Some?
    ensures Enabled(p.j, Inside(p, s).value) && Careful(p.j, Inside(p, s).value)
  {
    hide Enabled, SafeToAppend, Joins, CanWork;
  }

  lemma JournalPart(p: Pipe, s: Step)
    requires PipeInv(p) && Can(p, s) && Heedful(p, s)
    ensures var j := JournalAfter(p, s);
            && Inv(j) && Counted(j)
            && Log(j) == if Inside(p, s).Some? then LogStep(Log(p.j), EventOf(p.j, Inside(p, s).value)) else Log(p.j)
  {
    if Inside(p, s).Some? {
      AcksArePending(p, s);
      BeginIsCareful(p, s);
    }
    hide Heedful, Inside, Can, AcksPending, Inv, Counted, Enabled, Apply, Log, LogStep, EventOf, Linear;
    hide MemoryBacked, AnswersKept, Numbered;
    hide Blank, AckRule, SenderInv, Roles, SafeToAppend, Rest, CanWork, Joins;
    if Inside(p, s).Some? {
      var l := Inside(p, s).value;
      StepRefines(p.j, l);
      CountStep(p.j, l);
    }
  }

  // ---------------------------------------------------------------- linearity

  lemma {:induction false} InBatchWitness(b: Batch, id: nat) returns (k: nat)
    requires InBatch(b, id) > 0
    ensures k < |b| && b[k].id == id
  {
    if b[|b| - 1].id == id {
      k := |b| - 1;
    } else {
      k := InBatchWitness(b[..|b| - 1], id);
    }
  }

  lemma {:induction false} InBatchesWitness(bs: seq<Batch>, id: nat) returns (i: nat)
    requires InBatches(bs, id) > 0
    ensures i < |bs| && InBatch(bs[i], id) > 0
  {
    if InBatch(bs[|bs| - 1], id) > 0 {
      i := |bs| - 1;
    } else {
      i := InBatchesWitness(bs[..|bs| - 1], id);
    }
  }

  lemma BackedIds(b: Batch, log: seq<Record<nat>>, id: nat)
    requires Backed(b, log) && InBatch(b, id) > 0
    ensures id in LogIds(log)
  {
    var k := InBatchWitness(b, id);
    var n :| 0 <= n < |log| && log[n] == Record(b[k].id, b[k].req);
    assert log[n].id == id;
  }

  lemma AllBackedIds(bs: seq<Batch>, log: seq<Record<nat>>, id: nat)
    requires AllBacked(bs, log) && InBatches(bs, id) > 0
    ensures id in LogIds(log)
  {
    var i := InBatchesWitness(bs, id);
    BackedIds(bs[i], log, id);
  }

  lemma {:induction false} InIdsMember(ids: seq<nat>, id: nat)
    ensures InIds(ids, id) > 0 <==> id in ids
  {
    if ids != [] {
      InIdsMember(ids[1..], id);
      assert ids == [ids[0]] + ids[1..];
    }
  }

  // Whatever the process holds is pending.
  lemma HeldIsPending(p: Pipe, id: nat)
    requires MemoryBacked(p, Log(p.j)) && AckRule(p) && Count(p, id) > 0
    ensures id in LogIds(Log(p.j))
  {
    hide Log, LogIds;
    var log := Log(p.j);
    if InBatch(p.pushes, id) > 0 {
      BackedIds(p.pushes, log, id);
    } else if InBatches(p.tables, id) > 0 {
      AllBackedIds(p.tables, log, id);
    } else if InBatches(p.retired, id) > 0 {
      AllBackedIds(p.retired, log, id);
    } else if InBatches(p.unsent, id) > 0 {
      AllBackedIds(p.unsent, log, id);
    } else if InBatches(p.live.queue, id) > 0 {
      AllBackedIds(p.live.queue, log, id);
    } else if InBatch(Pipeline.Held(p.live.worker), id) > 0 {
      BackedIds(Pipeline.Held(p.live.worker), log, id);
    } else if InBatch(p.syncs, id) > 0 {
      BackedIds(p.syncs, log, id);
    } else if InBatch(p.doneOk, id) > 0 {
      BackedIds(p.doneOk, log, id);
    } else if InBatch(p.doneBad, id) > 0 {
      BackedIds(p.doneBad, log, id);
    } else {
      InIdsMember(Todo(p), id);
    }
  }

  // How often a step drops the id: it forgets a removed table, its dump fails, it is acknowledged, its acknowledgement
  // fails, or the process crashes.
  function Dropped(p: Pipe, s: Step, id: nat): nat
    requires Can(p, s)
  {
    match s
    case Forget(t) => InBatch(p.retired[t], id)
    case Work(Live, DumpFail(_)) => InBatch(Pipeline.Held(p.live.worker), id)
    case Inner(AckNext) => if p.j.phase.todo[0] == id then 1 else 0
    case Inner(AckFail) => InIds(p.j.phase.todo, id)
    case Die(_) => Count(p, id)
    case _ => 0
  }

  // How often it enters the process: when it is accepted or replayed.
  function Entered(p: Pipe, s: Step, id: nat): nat
    requires Can(p, s)
  {
    if s.AcceptAsync? || s.AcceptSync? then if Current(p).id == id then 1 else 0
    else if s.Replayed? then InBatch(ToItems(ReplayedRecords(p.j)), id)
    else 0
  }

  // A step that leaves the journal alone moves inserts from place to place, or drops them, but never doubles one.
  lemma MoveCount(p: Pipe, s: Step, id: nat)
    requires Can(p, s) && Inside(p, s).None? && !s.Inner? && Roles(p)
    ensures Count(Do(p, s), id) == Count(p, id) - Dropped(p, s, id)
  {
    hide Count, Can, Do, Inside;
    if s.Push? || s.PushNew? || s.PushOpaque? {
      PushCount(p, s, id);
    } else if s.Flush? || s.Clean? || s.LateFlush? || s.Forget? {
      TableCount(p, s, id);
    } else {
      SendCount(p, s, id);
    }
  }

  lemma PushCount(p: Pipe, s: Step, id: nat)
    requires Can(p, s) && (s.Push? || s.PushNew? || s.PushOpaque?)
    ensures Count(Do(p, s), id) == Count(p, id)
  {
    hide Up, InBatch, InBatches, InIds, Drop;
    var x := p.pushes[s.i];
    InBatchDrop(p.pushes, s.i, id);
    InBatchOne(x, id);
    InBatchesOne([x], id);
    InBatchesConcat(p.tables, [[x]], id);
    InBatchesConcat(p.unsent, [[x]], id);
    if s.Push? {
      InBatchesUpdate(p.tables, s.t, p.tables[s.t] + [x], id);
      InBatchConcat(p.tables[s.t], [x], id);
    }
  }

  lemma TableCount(p: Pipe, s: Step, id: nat)
    requires Can(p, s) && (s.Flush? || s.Clean? || s.LateFlush? || s.Forget?)
    ensures Count(Do(p, s), id) == Count(p, id) - Dropped(p, s, id)
  {
    hide Up, InBatch, InBatches, InIds, Drop;
    NoneInEmpty(id);
    match s {
      case Flush(t) =>
        InBatchesUpdate(p.tables, t, [], id);
        InBatchesConcat(p.unsent, [p.tables[t]], id);
        InBatchesOne(p.tables[t], id);
      case Clean(t) =>
        InBatchesDrop(p.tables, t, id);
        InBatchesConcat(p.retired, [p.tables[t]], id);
        InBatchesOne(p.tables[t], id);
      case LateFlush(t) =>
        InBatchesDrop(p.retired, t, id);
        InBatchesConcat(p.unsent, [p.retired[t]], id);
        InBatchesOne(p.retired[t], id);
      case Forget(t) =>
        InBatchesDrop(p.retired, t, id);
    }
  }

  lemma SendCount(p: Pipe, s: Step, id: nat)
    requires Can(p, s) && Inside(p, s).None? && !s.Inner? && !OfTables(s) && Roles(p)
    ensures Count(Do(p, s), id) == Count(p, id) - Dropped(p, s, id)
  {
    hide Can, Do, Count, Inside;
    if s.SyncSent? || s.SyncFailed? {
      SyncCount(p, s, id);
    } else if s.Send? {
      EnqueueCount(p, s, id);
    } else if s.Work? {
      WorkCount(p, s, id);
    } else {
      IdleCount(p, s, id);
    }
  }

  lemma EnqueueCount(p: Pipe, s: Step, id: nat)
    requires Can(p, s) && s.Send?
    ensures Count(Do(p, s), id) == Count(p, id)
  {
    hide Up, InBatch, InBatches, InIds, Drop, Enabled;
    InBatchesDrop(p.unsent, s.u, id);
    InBatchesConcat(p.live.queue, [p.unsent[s.u]], id);
    InBatchesOne(p.unsent[s.u], id);
  }

  lemma WorkCount(p: Pipe, s: Step, id: nat)
    requires Can(p, s) && s.Work?
    ensures Count(Do(p, s), id) == Count(p, id) - Dropped(p, s, id)
  {
    hide Up, InBatch, InBatches, InIds, Reqs, WorkOn, CanWork, BatchMessage, Enabled;
    NoneInEmpty(id);
    if s.target.Live? {
      WorkMoves(p.live, s.sl, BatchMessage(p.removeQueryID, Inserts(p.book, Pipeline.Held(p.live.worker))));
      if s.sl.Poll? {
        assert p.live.queue == [p.live.queue[0]] + p.live.queue[1..];
        InBatchesConcat([p.live.queue[0]], p.live.queue[1..], id);
        InBatchesOne(p.live.queue[0], id);
      }
    }
  }

  lemma IdleCount(p: Pipe, s: Step, id: nat)
    requires Can(p, s) && Inside(p, s).None? && !s.Inner? && !OfTables(s) && Roles(p)
    requires !s.SyncSent? && !s.SyncFailed? && !s.Send? && !s.Work?
    ensures Count(Do(p, s), id) == Count(p, id) - Dropped(p, s, id)
  {
    hide Up, InBatch, InBatches, InIds, Reqs, Drop, WorkOn, CanWork, BatchMessage, Enabled, FailedNow, Joins;
    NoneInEmpty(id);
  }

  lemma SyncCount(p: Pipe, s: Step, id: nat)
    requires Can(p, s) && (s.SyncSent? || s.SyncFailed?)
    ensures Count(Do(p, s), id) == Count(p, id)
  {
    hide Up, InBatch, InBatches, InIds, Reqs, Drop, FailedNow, Enabled;
    InBatchDrop(p.syncs, s.i, id);
    InBatchOne(p.syncs[s.i], id);
    InBatchConcat(p.doneOk, [p.syncs[s.i]], id);
    InBatchConcat(p.doneBad, [p.syncs[s.i]], id);
    if s.SyncFailed? {
      FailedMoves(p, s.i, s.status, s.arrived, s.response, s.dumped);
    }
  }

  lemma NoneInEmpty(id: nat)
    ensures InBatch([], id) == 0 && InBatches([], id) == 0 && InIds([], id) == 0
  {
  }

  lemma TodoShrinks(p: Pipe, l: Label<nat>, id: nat)
    requires Can(p, Inner(l)) && Inv(p.j)
    ensures Count(Do(p, Inner(l)), id) == Count(p, id) - Dropped(p, Inner(l), id)
  {
    hide InBatch, InBatches, Inv;
    NoneInEmpty(id);
  }

  // A batch, or a single insert, on its way from its holder to the acknowledgement.
  lemma AckCount(p: Pipe, s: Step, id: nat)
    requires Can(p, s) && Inside(p, s).Some? && Inside(p, s).value.AckBegin? && !s.Inner? && Roles(p)
    ensures Count(Do(p, s), id) == Count(p, id)
  {
    hide InBatch, InBatches;
    NoneInEmpty(id);
    assert forall x: nat :: [x][1..] == [];
    match s {
      case Settle(_) => InIdsOf(p.live.worker.b, id);
      case SyncAckOk(i) => InBatchDrop(p.doneOk, i, id);
      case SyncAckBad(i) => InBatchDrop(p.doneBad, i, id);
    }
  }

  // A record whose append returns enters memory once.
  lemma AcceptCount(p: Pipe, s: Step, id: nat)
    requires Can(p, s) && (s.AcceptAsync? || s.AcceptSync?)
    ensures Count(Do(p, s), id) == Count(p, id) + (if id == Current(p).id then 1 else 0)
  {
    hide InBatch, InBatches;
    InBatchOne(ToItem(Current(p)), id);
    InBatchConcat(p.pushes, [ToItem(Current(p))], id);
    InBatchConcat(p.syncs, [ToItem(Current(p))], id);
  }

  lemma {:induction false} ReplayedOnce(log: seq<Record<nat>>, id: nat)
    requires Ascending(log)
    ensures InBatch(ToItems(log), id) <= 1
    ensures (forall i | 0 <= i < |log| :: log[i].id < id) ==> InBatch(ToItems(log), id) == 0
  {
    if log != [] {
      var pre := log[..|log| - 1];
      assert ToItems(log)[..|log| - 1] == ToItems(pre);
      ReplayedOnce(pre, id);
    }
  }

  lemma ReplayCount(p: Pipe, id: nat)
    requires Can(p, Step.Replayed) && Blank(p) && Inv(p.j)
    ensures Count(Do(p, Step.Replayed), id) <= 1
    ensures Count(Do(p, Step.Replayed), id) == InBatch(ToItems(ReplayedRecords(p.j)), id) && Count(p, id) == 0
  {
    hide InBatch, InBatches, InIds, ToItems, Ascending, Unacked;
    NoneInEmpty(id);
    UnackedDistinct(Tokens(p.j.wal), p.j.acked);
    ReplayedOnce(ReplayedRecords(p.j), id);
    assert [] + ToItems(ReplayedRecords(p.j)) == ToItems(ReplayedRecords(p.j));
  }

  /**
   No step doubles an id, and none loses one, but for those that drop it: after any other step it is held as often as
   before, once more if it was accepted.
   */
  lemma CountAfter(p: Pipe, s: Step, id: nat)
    requires PipeInv(p) && Can(p, s)
    ensures Count(Do(p, s), id) <= 1
    ensures Count(Do(p, s), id) == Count(p, id) + Entered(p, s, id) - Dropped(p, s, id)
  {
    hide Count, Do, SenderInv, Roles, Inv, Counted, MemoryBacked, AckRule, AnswersKept, Numbered;
    assert Count(p, id) <= 1;
    match s {
      case Inner(l) => TodoShrinks(p, l, id);
      case Start(_, _) => OutsideCount(p, s, id);
      case Begin(_, _, _) => OutsideCount(p, s, id);
      case AcceptAsync => AcceptCount(p, s, id);
      case AcceptSync => AcceptCount(p, s, id);
      case Replayed => ReplayCount(p, id);
      case Die(_) => OutsideCount(p, s, id);
      case _ =>
        if Inside(p, s).Some? {
          AckCount(p, s, id);
        } else {
          MoveCount(p, s, id);
        }
    }
  }

  lemma OutsideCount(p: Pipe, s: Step, id: nat)
    requires Can(p, s) && (s.Start? || s.Begin? || s.Die?)
    ensures Count(Do(p, s), id) == Count(p, id) - Dropped(p, s, id)
  {
    hide InBatch, InBatches;
    NoneInEmpty(id);
  }

  // The id of a line just written is held by nobody.
  lemma WrittenUnheld(p: Pipe, s: Step)
    requires Can(p, s) && PipeInv(p) && Heedful(p, s)
    requires Do(p, s).j.phase.Written? && Do(p, s).j.phase.line.parsed.Some?
    ensures Count(Do(p, s), Do(p, s).j.phase.line.parsed.value.id) == 0
  {
    hide SenderInv, Roles, Rest, Count, Counted, MemoryBacked, AckRule, AnswersKept, Numbered, Blank, Inv, Enabled;
    hide Apply;
    if s.Inner? {
      WrittenInner(p, s.l);
    } else {
      NotWrittenByOthers(p, s);
      MoveCount(p, s, p.j.phase.line.parsed.value.id);
    }
  }

  lemma WrittenInner(p: Pipe, l: Label<nat>)
    requires Can(p, Inner(l)) && Inv(p.j) && MemoryBacked(p, Log(p.j)) && AckRule(p)
    requires Apply(p.j, l).phase.Written?
    ensures p.j.phase.Writing? && p.j.phase.line == Apply(p.j, l).phase.line && p.j.phase.line.parsed.Some?
    ensures Count(Do(p, Inner(l)), p.j.phase.line.parsed.value.id) == 0
  {
    hide Count, MemoryBacked, AckRule, Inv, Do, Log, Apply;
    WrittenBefore(p.j, l);
    NewIdUnlogged(p.j);
    var id := p.j.phase.line.parsed.value.id;
    TodoShrinks(p, l, id);
    if Count(p, id) > 0 {
      HeldIsPending(p, id);
    }
  }

  lemma NewIdUnlogged(j: St<nat>)
    requires Inv(j) && j.phase.Writing?
    ensures j.phase.line.parsed.Some? && j.phase.line.parsed.value.id !in LogIds(Log(j))
  {
    hide Increasing, Ids, Tokens, LogIds, Unacked;
    UnackedIds(Tokens(j.wal), AckSet(j.ack));
  }

  lemma NotWrittenByOthers(p: Pipe, s: Step)
    requires Inv(p.j) && Can(p, s) && !s.Inner? && JournalAfter(p, s).phase.Written?
    ensures Inside(p, s).None? && p.j == JournalAfter(p, s)
  {
    hide UpInv, Increasing, Tokens, Ids;
  }

  lemma LinearAfter(p: Pipe, s: Step)
    requires PipeInv(p) && Can(p, s) && Heedful(p, s)
    ensures Linear(Do(p, s))
  {
    hide Count, PipeInv, Can;
    forall id ensures Count(Do(p, s), id) <= 1 {
      CountAfter(p, s, id);
    }
    if Do(p, s).j.phase.Written? && Do(p, s).j.phase.line.parsed.Some? {
      WrittenUnheld(p, s);
    }
  }

  // ---------------------------------------------------------------- every insert held is pending

  lemma BackedGrows(b: Batch, log: seq<Record<nat>>, log': seq<Record<nat>>)
    requires Backed(b, log) && forall r | r in log :: r in log'
    ensures Backed(b, log')
  {
  }

  lemma AllBackedGrows(bs: seq<Batch>, log: seq<Record<nat>>, log': seq<Record<nat>>)
    requires AllBacked(bs, log) && forall r | r in log :: r in log'
    ensures AllBacked(bs, log')
  {
    forall i | 0 <= i < |bs| ensures Backed(bs[i], log') {
      BackedGrows(bs[i], log, log');
    }
  }

  lemma BackedWithout(b: Batch, log: seq<Record<nat>>, id: nat)
    requires Backed(b, log) && InBatch(b, id) == 0
    ensures Backed(b, Without(log, id))
  {
    WithoutMember(log, id);
    forall k | 0 <= k < |b| ensures Record(b[k].id, b[k].req) in Without(log, id) {
      InBatchMember(b, k);
    }
  }

  lemma AllBackedWithout(bs: seq<Batch>, log: seq<Record<nat>>, id: nat)
    requires AllBacked(bs, log) && InBatches(bs, id) == 0
    ensures AllBacked(bs, Without(log, id))
  {
    forall i | 0 <= i < |bs| ensures Backed(bs[i], Without(log, id)) {
      InBatchesDrop(bs, i, id);
      BackedWithout(bs[i], log, id);
    }
  }

  lemma MemoryGrows(p: Pipe, log: seq<Record<nat>>, log': seq<Record<nat>>)
    requires MemoryBacked(p, log) && forall r | r in log :: r in log'
    ensures MemoryBacked(p, log')
  {
    hide Backed, AllBacked;
    BackedGrows(p.pushes, log, log');
    AllBackedGrows(p.tables, log, log');
    AllBackedGrows(p.retired, log, log');
    AllBackedGrows(p.unsent, log, log');
    AllBackedGrows(p.live.queue, log, log');
    BackedGrows(Pipeline.Held(p.live.worker), log, log');
    BackedGrows(p.syncs, log, log');
    BackedGrows(p.doneOk, log, log');
    BackedGrows(p.doneBad, log, log');
  }

  // The id being acknowledged is held nowhere else.
  lemma MemoryWithout(p: Pipe, log: seq<Record<nat>>, id: nat)
    requires MemoryBacked(p, log) && InIds(Todo(p), id) > 0 && Count(p, id) <= 1
    ensures MemoryBacked(p, Without(log, id))
  {
    hide Backed, AllBacked, Without;
    BackedWithout(p.pushes, log, id);
    AllBackedWithout(p.tables, log, id);
    AllBackedWithout(p.retired, log, id);
    AllBackedWithout(p.unsent, log, id);
    AllBackedWithout(p.live.queue, log, id);
    BackedWithout(Pipeline.Held(p.live.worker), log, id);
    BackedWithout(p.syncs, log, id);
    BackedWithout(p.doneOk, log, id);
    BackedWithout(p.doneBad, log, id);
  }

  // An insert that enters memory is in the log.
  lemma CurrentLogged(p: Pipe)
    requires Inv(p.j) && p.j.phase.Written? && p.j.phase.line.parsed.Some?
    ensures Current(p) in Log(p.j)
  {
    UnackedMember(Tokens(p.j.wal), AckSet(p.j.ack));
    assert Holds(Tokens(p.j.wal), AckSet(p.j.ack), Current(p));
  }

  lemma MemoryMoved(p: Pipe, s: Step, log: seq<Record<nat>>)
    requires Can(p, s) && MemoryBacked(p, log)
    requires s.AcceptAsync? || s.AcceptSync? ==> Current(p) in log
    requires s.Replayed? ==> ReplayedRecords(p.j) == log
    ensures MemoryBacked(Do(p, s), log)
  {
    hide MemoryBacked, Can, Do;
    if OfTables(s) {
      MemoryTabled(p, s, log);
    } else if s.Work? || s.Settle? {
      MemoryWorked(p, s, log);
    } else {
      MemoryOther(p, s, log);
    }
  }

  lemma MemoryWorked(p: Pipe, s: Step, log: seq<Record<nat>>)
    requires Can(p, s) && MemoryBacked(p, log) && (s.Work? || s.Settle?)
    ensures MemoryBacked(Do(p, s), log)
  {
    hide Up, Enabled, Apply, Inside, Reqs, WorkOn, CanWork, BatchMessage;
    if s.Work? && s.target.Live? {
      WorkMoves(p.live, s.sl, BatchMessage(p.removeQueryID, Inserts(p.book, Pipeline.Held(p.live.worker))));
    }
  }

  lemma MemoryOther(p: Pipe, s: Step, log: seq<Record<nat>>)
    requires Can(p, s) && MemoryBacked(p, log)
    requires !OfTables(s) && !s.Work? && !s.Settle?
    requires s.AcceptAsync? || s.AcceptSync? ==> Current(p) in log
    requires s.Replayed? ==> ReplayedRecords(p.j) == log
    ensures MemoryBacked(Do(p, s), log)
  {
    hide MemoryBacked, Can, Do;
    if s.AcceptAsync? || s.AcceptSync? || s.Replayed? {
      MemoryEntered(p, s, log);
    } else if s.SyncSent? || s.SyncFailed? || s.SyncAckOk? || s.SyncAckBad? {
      MemorySynced(p, s, log);
    } else {
      MemoryElse(p, s, log);
    }
  }

  lemma MemoryEntered(p: Pipe, s: Step, log: seq<Record<nat>>)
    requires Can(p, s) && MemoryBacked(p, log)
    requires ((s.AcceptAsync? || s.AcceptSync?) && Current(p) in log)
             || (s.Replayed? && ReplayedRecords(p.j) == log)
    ensures MemoryBacked(Do(p, s), log)
  {
    hide Up, Enabled, Apply, Log, Unacked;
  }

  lemma MemorySynced(p: Pipe, s: Step, log: seq<Record<nat>>)
    requires Can(p, s) && MemoryBacked(p, log)
    requires s.SyncSent? || s.SyncFailed? || s.SyncAckOk? || s.SyncAckBad?
    ensures MemoryBacked(Do(p, s), log)
  {
    hide Up, Enabled, Apply, Reqs, FailedNow, Backed, AllBacked, Drop;
    match s {
      case SyncSent(i) =>
        BackedDrop(p.syncs, i, log);
        BackedAdd(p.doneOk, [p.syncs[i]], log);
      case SyncFailed(i, status, arrived, response, dumped) =>
        FailedMoves(p, i, status, arrived, response, dumped);
        BackedDrop(p.syncs, i, log);
        BackedAdd(p.doneBad, [p.syncs[i]], log);
      case SyncAckOk(i) => BackedDrop(p.doneOk, i, log);
      case SyncAckBad(i) => BackedDrop(p.doneBad, i, log);
    }
  }

  lemma BackedDrop(b: Batch, i: nat, log: seq<Record<nat>>)
    requires Backed(b, log) && i < |b|
    ensures Backed(Drop(b, i), log) && Backed([b[i]], log)
  {
  }

  lemma BackedAdd(b: Batch, c: Batch, log: seq<Record<nat>>)
    requires Backed(b, log) && Backed(c, log)
    ensures Backed(b + c, log)
  {
  }

  lemma MemoryElse(p: Pipe, s: Step, log: seq<Record<nat>>)
    requires Can(p, s) && MemoryBacked(p, log)
    requires s.Inner? || s.Start? || s.Begin? || s.Send? || s.SendCopy? || s.Reply? || s.Die?
    ensures MemoryBacked(Do(p, s), log)
  {
    hide Up, Enabled, Apply;
  }

  lemma MemoryTabled(p: Pipe, s: Step, log: seq<Record<nat>>)
    requires Can(p, s) && MemoryBacked(p, log)
    requires OfTables(s)
    ensures MemoryBacked(Do(p, s), log)
  {
    hide Up, Enabled, Apply;
  }

  lemma MemoryAfterAck(p: Pipe)
    requires Can(p, Inner(AckNext)) && Fresh(p.j, p.j.phase.todo[0])
    requires MemoryBacked(p, Log(p.j)) && forall id :: Count(p, id) <= 1
    ensures MemoryBacked(Do(p, Inner(AckNext)), Without(Log(p.j), p.j.phase.todo[0]))
  {
    hide Log, MemoryBacked, Count, Unacked, Without, Do;
    var id := p.j.phase.todo[0];
    InIdsMember(Todo(p), id);
    assert Count(p, id) <= 1;
    MemoryWithout(p, Log(p.j), id);
    MemoryMoved(p, Inner(AckNext), Without(Log(p.j), id));
  }

  lemma MemoryAfter(p: Pipe, s: Step)
    requires Can(p, s) && PipeInv(p) && Heedful(p, s)
    ensures MemoryBacked(Do(p, s), Log(Do(p, s).j))
  {
    hide Inv, Log, Counted, MemoryBacked, AckRule, AnswersKept, Numbered, Count, Unacked, Apply, Rest, SenderInv;
    hide Roles, Blank;
    JournalPart(p, s);
    var log := Log(p.j);
    if s == Inner(AckNext) && Fresh(p.j, p.j.phase.todo[0]) {
      MemoryAfterAck(p);
    } else {
      EnteredIsLogged(p, s);
      MemoryMoved(p, s, log);
      LogGrows(p, s);
      MemoryGrows(Do(p, s), log, Log(Do(p, s).j));
    }
  }

  lemma EnteredIsLogged(p: Pipe, s: Step)
    requires Can(p, s) && Inv(p.j)
    ensures s.AcceptAsync? || s.AcceptSync? ==> Current(p) in Log(p.j)
    ensures s.Replayed? ==> ReplayedRecords(p.j) == Log(p.j)
  {
    hide Inv, Log, ReplayedRecords, Apply, Joins;
    if s.AcceptAsync? || s.AcceptSync? {
      CurrentLogged(p);
    }
    if s.Replayed? {
      ReplayIsLog(p.j);
    }
  }

  // Only an acknowledgement takes a record out of the log.
  lemma LogGrows(p: Pipe, s: Step)
    requires Can(p, s) && !(s == Inner(AckNext) && Fresh(p.j, p.j.phase.todo[0]))
    requires Log(JournalAfter(p, s))
          == if Inside(p, s).Some? then LogStep(Log(p.j), EventOf(p.j, Inside(p, s).value)) else Log(p.j)
    ensures forall r | r in Log(p.j) :: r in Log(JournalAfter(p, s))
  {
    hide Log, JournalAfter, Without, Joins, Enabled;
    if Inside(p, s).Some? && EventOf(p.j, Inside(p, s).value).Acked? {
      OnlyAcksRemove(p.j, Inside(p, s).value);
    }
  }

  // ---------------------------------------------------------------- the acknowledgement rule

  // What is covered stays covered.
  lemma CoveredGrows(p: Pipe, s: Step)
    requires SenderInv(p.live) && Can(p, s) && Heedful(p, s)
    ensures SenderInv(Do(p, s).live)
    ensures Covered(p) <= Covered(Do(p, s)) && p.excused <= Do(p, s).excused
    ensures p.live.accepted <= Do(p, s).live.accepted
    ensures p.live.spoiled <= Do(p, s).live.spoiled
  {
    hide Enabled, Apply, Inside, Up, Drop, Reqs, WorkOn, CanWork, SenderInv, StoredBy, Joins, BatchMessage, SyncMessage;
    hide DumpedWhole, FailedNow, Tabled;
    match s {
      case Start(prefix, _) => StartKeeps(p.live, prefix);
      case Work(t, sl) =>
        if t.Live? {
          WorkKeeps(p.live, sl, BatchMessage(p.removeQueryID, Inserts(p.book, Pipeline.Held(p.live.worker))));
        }
      case SyncFailed(i, status, arrived, response, dumped) => FailedGrows(p, i, status, arrived, response, dumped);
      case Die(_) => RestartKeeps(p.live);
      case _ =>
        SameDirectory(p, s);
        MoreAccepted(p.live, Do(p, s).live);
    }
  }

  lemma FailedGrows(p: Pipe, i: nat, status: nat, arrived: bool, response: string, dumped: bool)
    requires SenderInv(p.live) && i < |p.syncs|
    ensures var q := FailedNow(p, i, status, arrived, response, dumped);
            && SenderInv(q.live) && CoveredBy(p.live) <= CoveredBy(q.live)
            && p.live.accepted <= q.live.accepted && p.excused <= q.excused && p.live.spoiled <= q.live.spoiled
  {
    hide Reqs, SenderInv, StoredBy, DumpedWhole, SyncMessage;
    var b := [p.syncs[i]];
    var live := p.live.(accepted := if arrived then p.live.accepted + Reqs(b) else p.live.accepted);
    MoreAccepted(p.live, live);
    WholeDumpKeeps(live, b, SyncMessage(Book(p.book, p.syncs[i].req)), status, response);
  }

  // The live dumper is as it was.
  predicate SameDumper(a: Sender, b: Sender) {
    && b.prefix == a.prefix && b.prefixes == a.prefixes && b.dir == a.dir && b.origins == a.origins
    && b.failedOrigins == a.failedOrigins
    && b.dumpNum == a.dumpNum && b.spoiled == a.spoiled && a.accepted <= b.accepted
  }

  predicate OfSync(s: Step) {
    s.SyncSent? || s.SyncAckOk? || s.SyncAckBad? || s.Reply?
  }

  // The other steps leave the live dumper alone.
  lemma SameDirectory(p: Pipe, s: Step)
    requires Can(p, s) && !s.Start? && !s.Work? && !s.SyncFailed? && !s.Die?
    ensures SameDumper(p.live, Do(p, s).live) && p.excused <= Do(p, s).excused
  {
    if OfTables(s) {
      hide Tabled, Can;
      TabledAside(p, s);
    } else if OfSync(s) {
      hide Enabled, Apply, Inside, Up, Drop, Reqs;
    } else {
      hide Can, Do, SameDumper;
      SameDirectoryElse(p, s);
    }
  }

  lemma SameDirectoryElse(p: Pipe, s: Step)
    requires Can(p, s) && !s.Start? && !s.Work? && !s.SyncFailed? && !s.Die? && !OfTables(s) && !OfSync(s)
    ensures SameDumper(p.live, Do(p, s).live) && p.excused <= Do(p, s).excused
  {
    hide SameDumper, Can, Do;
    if s.Send? || s.SendCopy? || s.Settle? {
      SameDirectorySent(p, s);
    } else {
      SameDirectoryEntered(p, s);
    }
  }

  lemma SameDirectorySent(p: Pipe, s: Step)
    requires Can(p, s) && (s.Send? || s.SendCopy? || s.Settle?)
    ensures SameDumper(p.live, Do(p, s).live) && p.excused <= Do(p, s).excused
  {
    hide Can, JournalAfter, SameDumper, Drop, CopyTo;
    SentAside(p, s);
  }

  lemma SentAside(p: Pipe, s: Step)
    requires Can(p, s) && (s.Send? || s.SendCopy? || s.Settle?)
    ensures SameDumper(p.live, Rest(p, s).live) && Rest(p, s).excused == p.excused
  {
    match s {
      case Send(_) => hide Can, Drop, CopyTo;
      case SendCopy(_) => hide Can, Drop;
      case Settle(_) => hide Can;
    }
  }

  lemma SameDirectoryEntered(p: Pipe, s: Step)
    requires Can(p, s) && (s.Inner? || s.Begin? || s.AcceptAsync? || s.AcceptSync? || s.Replayed?)
    ensures SameDumper(p.live, Do(p, s).live) && p.excused <= Do(p, s).excused
  {
    hide Enabled, Apply, Inside, Up, ToItems, Joins;
  }

  // A record whose id is in a batch that memory backs has that batch's content.
  lemma SameRecord(p: Pipe, b: Batch, r: Record<nat>)
    requires Inv(p.j) && Backed(b, Log(p.j)) && r in Log(p.j) && r.id in IdsOf(b)
    ensures r.payload in Reqs(b)
  {
    UnackedDistinct(Tokens(p.j.wal), AckSet(p.j.ack));
    var k :| 0 <= k < |b| && IdsOf(b)[k] == r.id;
    var log := Log(p.j);
    var m :| 0 <= m < |log| && log[m] == r;
    var n :| 0 <= n < |log| && log[n] == Record(b[k].id, b[k].req);
    assert m == n;
  }

  // What the rule says of the acknowledgement under way.
  ghost predicate TodoRule(p: Pipe) {
    && (forall r | r in Log(p.j) && r.id in Todo(p) :: r.payload in Covered(p) + p.excused)
    && (forall i | 0 <= i < |Todo(p)| :: Todo(p)[i] in LogIds(Log(p.j)))
  }

  lemma BegunJournal(p: Pipe, s: Step, ids: seq<nat>)
    requires Can(p, s) && Inside(p, s) == Some(AckBegin(ids))
    ensures Log(Do(p, s).j) == Log(p.j) && Todo(Do(p, s)) == ids
  {
    hide Rest, Unacked, Tokens, AckSet;
  }

  lemma TodoBegun(p: Pipe, s: Step, b: Batch)
    requires PipeInv(p) && Can(p, s) && Heedful(p, s) && Inside(p, s) == Some(AckBegin(IdsOf(b)))
    requires Backed(b, Log(p.j)) && Reqs(b) <= Covered(p) + p.excused
    ensures TodoRule(Do(p, s))
  {
    hide Inv, Counted, MemoryBacked, AckRule, AnswersKept, Numbered, Linear, SenderInv, Rest, CoveredBy, Backed;
    var q := Do(p, s);
    BegunJournal(p, s, IdsOf(b));
    CoveredGrows(p, s);
    hide Log, Apply, Enabled, Inside;
    forall r | r in Log(p.j) && r.id in IdsOf(b) ensures r.payload in Covered(q) + q.excused {
      SameRecord(p, b, r);
    }
    forall i | 0 <= i < |b| ensures IdsOf(b)[i] in LogIds(Log(p.j)) {
      InBatchMember(b, i);
      BackedIds(b, Log(p.j), b[i].id);
    }
  }

  lemma TodoAdvanced(p: Pipe)
    requires Can(p, Inner(AckNext)) && PipeInv(p)
    ensures TodoRule(Do(p, Inner(AckNext)))
  {
    hide SenderInv, CoveredBy, MemoryBacked, AnswersKept, Numbered, Roles, Blank, Counted;
    var q, todo := Do(p, Inner(AckNext)), p.j.phase.todo;
    JournalPart(p, Inner(AckNext));
    assert Todo(p) == todo && Todo(q) == todo[1..];
    assert Count(p, todo[0]) <= 1;
    assert Log(q.j) == Log(p.j) || Log(q.j) == Without(Log(p.j), todo[0]);
    hide Inv, Log, Counted, MemoryBacked, AnswersKept, Numbered, Linear, Do, Apply, Enabled, Without;
    InIdsMember(todo[1..], todo[0]);
    WithoutMember(Log(p.j), todo[0]);
    forall i | 0 <= i < |todo[1..]| ensures todo[1..][i] in LogIds(Log(q.j)) {
      assert Todo(p)[i + 1] == todo[1..][i];
      StillLogged(Log(p.j), Log(q.j), todo[0], todo[1..][i]);
    }
  }

  lemma StillLogged(log: seq<Record<nat>>, log': seq<Record<nat>>, gone: nat, id: nat)
    requires (log' == log || log' == Without(log, gone)) && id in LogIds(log) && id != gone
    ensures id in LogIds(log')
  {
    hide Without;
    WithoutMember(log, gone);
    var n :| 0 <= n < |log| && log[n].id == id;
    assert log[n] in log';
  }

  lemma TodoAfter(p: Pipe, s: Step)
    requires PipeInv(p) && Can(p, s) && Heedful(p, s)
    ensures TodoRule(Do(p, s))
  {
    hide Counted, Linear, AnswersKept, Numbered, Blank, SenderInv, CoveredBy, Log, Inv, Rest, Do, TodoRule, Reqs;
    hide Backed, AllBacked;
    match s {
      case Settle(t) =>
        if Inside(p, s).Some? {
          TodoBegun(p, s, p.live.worker.b);
        } else {
          TodoIdle(p, s);
        }
      case SyncAckOk(i) =>
        AcceptedIsCovered(p.live);
        TodoOne(p, s, p.doneOk, i);
      case SyncAckBad(i) => TodoOne(p, s, p.doneBad, i);
      case Inner(AckNext) => TodoAdvanced(p);
      case _ => TodoIdle(p, s);
    }
  }

  lemma TodoOne(p: Pipe, s: Step, b: Batch, i: nat)
    requires PipeInv(p) && Can(p, s) && Heedful(p, s) && i < |b| && Inside(p, s) == Some(AckBegin([b[i].id]))
    requires Backed(b, Log(p.j)) && Reqs(b) <= Covered(p) + p.excused
    ensures TodoRule(Do(p, s))
  {
    hide PipeInv, Can, Do, TodoRule, CoveredBy, Log, Inside, Heedful;
    assert IdsOf([b[i]]) == [b[i].id];
    ReqsOne(b[i]);
    assert b[i].req in Reqs(b);
    TodoBegun(p, s, [b[i]]);
  }

  // The other steps leave the acknowledgement under way as it is, or end it.
  lemma TodoIdle(p: Pipe, s: Step)
    requires PipeInv(p) && Can(p, s) && Heedful(p, s) && s != Inner(AckNext)
    requires Inside(p, s).Some? ==> !Inside(p, s).value.AckBegin?
    ensures TodoRule(Do(p, s))
  {
    hide SenderInv, CoveredBy, Counted, MemoryBacked, AnswersKept, Numbered, Linear, Rest, Blank, Roles;
    JournalPart(p, s);
    CoveredGrows(p, s);
    TodoKept(p, s);
    hide Inv, Log, Counted, MemoryBacked, AnswersKept, Numbered, Linear, Rest, Apply, Enabled;
  }

  lemma TodoKept(p: Pipe, s: Step)
    requires Inv(p.j) && Can(p, s) && s != Inner(AckNext)
    requires Inside(p, s).Some? ==> !Inside(p, s).value.AckBegin?
    ensures Todo(Do(p, s)) == [] || (Todo(Do(p, s)) == Todo(p) && Inside(p, s).None?)
  {
  }

  lemma AckRuleAfter(p: Pipe, s: Step)
    requires PipeInv(p) && Can(p, s) && Heedful(p, s)
    ensures AckRule(Do(p, s))
  {
    TodoAfter(p, s);
    CoveredGrows(p, s);
    HandsAfter(p, s);
    hide Inv, Log, Counted, MemoryBacked, AnswersKept, Numbered, Linear, Rest, Apply, Enabled;
  }

  // The part of the rule about what waits for its acknowledgement.
  lemma HandsAfter(p: Pipe, s: Step)
    requires AckRule(p) && SenderInv(p.live) && Can(p, s) && Heedful(p, s)
    ensures var q := Do(p, s);
            && (q.live.worker.Storing? ==> Reqs(q.live.worker.b) <= Covered(q))
            && Reqs(q.doneOk) <= q.live.accepted
            && Reqs(q.doneBad) <= q.excused
  {
    if s.Work? || s.SyncSent? || s.SyncFailed? {
      HandsOfSender(p, s);
    } else {
      HandsElse(p, s);
    }
  }

  lemma HandsOfSender(p: Pipe, s: Step)
    requires AckRule(p) && SenderInv(p.live) && Can(p, s) && Heedful(p, s)
    requires s.Work? || s.SyncSent? || s.SyncFailed?
    ensures var q := Do(p, s);
            && (q.live.worker.Storing? ==> Reqs(q.live.worker.b) <= Covered(q))
            && Reqs(q.doneOk) <= q.live.accepted
            && Reqs(q.doneBad) <= q.excused
  {
    hide Log, LogIds, Enabled, Apply, Reqs, WorkOn, CanWork, Inside, Up, Drop, SenderInv, StoredBy, Joins, Tabled;
    hide BatchMessage, SyncMessage, DumpedWhole;
    CoveredGrows(p, s);
    match s {
      case Work(t, sl) =>
        if t.Live? {
          WorkStores(p.live, sl, BatchMessage(p.removeQueryID, Inserts(p.book, Pipeline.Held(p.live.worker))));
        }
      case SyncSent(i) =>
        ReqsAdd(p.doneOk, p.syncs[i]);
        ReqsOne(p.syncs[i]);
      case SyncFailed(i, status, _, response, _) =>
        ReqsAdd(p.doneBad, p.syncs[i]);
        SameWorker(p.live, [p.syncs[i]], SyncMessage(Book(p.book, p.syncs[i].req)), status, response);
    }
  }

  lemma HandsElse(p: Pipe, s: Step)
    requires AckRule(p) && SenderInv(p.live) && Can(p, s) && Heedful(p, s)
    requires !s.Work? && !s.SyncSent? && !s.SyncFailed?
    ensures var q := Do(p, s);
            && (q.live.worker.Storing? ==> Reqs(q.live.worker.b) <= Covered(q))
            && Reqs(q.doneOk) <= q.live.accepted
            && Reqs(q.doneBad) <= q.excused
  {
    hide Log, LogIds, Enabled, Apply, Reqs, WorkOn, CanWork, Inside, Up, Drop, SenderInv, StoredBy, Joins, Tabled;
    hide BatchMessage, SyncMessage, FailedNow;
    if OfTables(s) {
      TabledAside(p, s);
    }
    CoveredGrows(p, s);
    match s {
      case SyncAckOk(i) => ReqsDrop(p.doneOk, i);
      case SyncAckBad(i) => ReqsDrop(p.doneBad, i);
      case _ => NoReqs();
    }
  }

  lemma SameWorker(s: Sender, b: Batch, m: Message, status: nat, response: string)
    ensures forall accepted ::
              DumpedWhole(s.(accepted := accepted), b, m, status, response).worker == s.worker
              && DumpedWhole(s.(accepted := accepted), b, m, status, response).queue == s.queue
  {
  }

  // What a worker is about to acknowledge has been taken or dumped.
  lemma AcceptedIsStored(s: Sender)
    ensures s.accepted <= StoredBy(s)
  {
  }

  lemma AcceptedIsCovered(s: Sender)
    ensures s.accepted <= CoveredBy(s)
  {
  }

  // What a worker is about to acknowledge has been taken or dumped.
  lemma WorkStores(s: Sender, l: SenderLabel, m: Message)
    requires SenderInv(s) && CanWork(s, l) && (s.worker.Storing? ==> Reqs(s.worker.b) <= CoveredBy(s))
    ensures var t := WorkOn(s, l, m);
            t.worker.Storing? ==> Reqs(t.worker.b) <= CoveredBy(t)
  {
    hide SenderInv, Reqs, D.Enabled, D.Apply, Taken, Carried, ToldBy, StoredBy, DumpName.FileName, DumpText, ReadsBack;
    WorkKeeps(s, l, m);
    if l.SendOk? {
      AcceptedIsStored(WorkOn(s, l, m));
    }
    if l.DumpOk? {
      var u := DumpedWhole(s, s.worker.b, m, s.worker.status, s.worker.response);
      WholeDumpKeeps(s, s.worker.b, m, s.worker.status, s.worker.response);
      hide DumpedWhole;
      MoreAccepted(u, WorkOn(s, l, m));
    }
  }

  lemma ReqsOne(x: Item)
    ensures Reqs([x]) == {x.req}
  {
    assert [x][0] == x;
  }

  // ---------------------------------------------------------------- answers, numbers, roles

  // A record leaves the log only to the acknowledgement rule.
  lemma LogKept(p: Pipe, s: Step, r: Record<nat>)
    requires PipeInv(p) && Can(p, s) && Heedful(p, s) && r in Log(p.j)
    ensures r in Log(Do(p, s).j) || r.payload in Covered(p) + p.excused
  {
    hide Inv, Log, Counted, MemoryBacked, Linear, Without, Stored, AnswersKept, Numbered, Roles, Blank, Apply, Rest;
    hide EventOf, Enabled, JournalAfter, LogIds;
    JournalPart(p, s);
    if Inside(p, s).Some? {
      if EventOf(p.j, Inside(p, s).value).Acked? {
        OnlyAcksRemove(p.j, Inside(p, s).value);
        AckInside(p, s);
        WithoutMember(Log(p.j), Todo(p)[0]);
      }
    }
  }

  lemma OnlyAcksRemove(j: St<nat>, l: Label<nat>)
    requires Enabled(j, l) && EventOf(j, l).Acked?
    ensures l.AckNext? && j.phase.Acking? && j.phase.todo != [] && EventOf(j, l) == Acked(j.phase.todo[0])
  {
  }

  lemma AckInside(p: Pipe, s: Step)
    requires Can(p, s) && Inside(p, s) == Some(AckNext)
    ensures Todo(p) == p.j.phase.todo && Todo(p) != []
  {
  }

  lemma AnswersAfter(p: Pipe, s: Step)
    requires PipeInv(p) && Can(p, s) && Heedful(p, s)
    ensures AnswersKept(Do(p, s))
  {
    hide SenderInv, CoveredBy, Linear, MemoryBacked, AckRule, Roles, Blank, Counted;
    var q := Do(p, s);
    CoveredGrows(p, s);
    forall a | a in p.answered && a !in Covered(q) ensures exists r | r in Log(q.j) :: r.payload == a {
      var r :| r in Log(p.j) && r.payload == a;
      hide Inv, Log, Counted, MemoryBacked, Linear, Stored, AckRule, Roles, Blank, Apply, Rest;
      LogKept(p, s, r);
    }
    NewAnswer(p, s);
    hide Inv, Log, Counted, MemoryBacked, Linear, Stored, AckRule, Numbered, Roles, Blank, Apply, Rest;
  }

  // Who joins the answered.
  lemma NewAnswer(p: Pipe, s: Step)
    requires PipeInv(p) && Can(p, s)
    ensures forall a | a in Do(p, s).answered - p.answered ::
              a in Covered(Do(p, s)) || exists r | r in Log(Do(p, s).j) :: r.payload == a
  {
    if s.AcceptAsync? {
      AcceptedIsLogged(p);
    } else {
      NoNewAnswer(p, s);
    }
  }

  lemma AcceptedIsLogged(p: Pipe)
    requires PipeInv(p) && Can(p, AcceptAsync)
    ensures forall a | a in Do(p, AcceptAsync).answered - p.answered ::
              exists r | r in Log(Do(p, AcceptAsync).j) :: r.payload == a
  {
    hide SenderInv, CoveredBy, Counted, MemoryBacked, Linear, AckRule, AnswersKept, Roles, Blank, Numbered;
    CurrentLogged(p);
    assert Log(Do(p, AcceptAsync).j) == Log(p.j);
    hide Inv, Log, Enabled, Apply;
  }

  // The other way to an answer is that of a synchronous insert that live has taken.
  lemma NoNewAnswer(p: Pipe, s: Step)
    requires PipeInv(p) && Can(p, s) && !s.AcceptAsync?
    ensures forall a | a in Do(p, s).answered - p.answered :: a in Covered(Do(p, s))
  {
    AcceptedIsCovered(p.live);
    hide PipeInv, CoveredBy;
    if !s.Reply? {
      hide Can, Do;
      SameAnswers(p, s);
    } else {
      hide Enabled, Apply;
      assert Do(p, s).live == p.live && Do(p, s).answered - p.answered <= p.live.accepted by {
        RepliesAccepted(p);
      }
    }
  }

  lemma RepliesAccepted(p: Pipe)
    requires PipeInv(p)
    ensures p.replies <= p.live.accepted
  {
    hide SenderInv, Counted, MemoryBacked, Linear, AckRule, AnswersKept, Roles, Blank, Inv;
  }

  /** Only an append that returned, and a reply to a synchronous insert that was sent and acknowledged, answer 200. */
  lemma AnsweredExactly(p: Pipe, s: Step)
    requires Can(p, s)
    ensures Do(p, s).answered
         == p.answered + (if s.AcceptAsync? then {Current(p).payload} else if s.Reply? then {s.req} else {})
    ensures s.Reply? ==> s.req in p.replies
  {
    if s.AcceptAsync? || s.Reply? {
      hide Enabled, Apply;
    } else {
      SameAnswers(p, s);
      hide Can, Do;
    }
  }

  lemma SameAnswers(p: Pipe, s: Step)
    requires Can(p, s) && !s.AcceptAsync? && !s.Reply?
    ensures Do(p, s).answered == p.answered
  {
    if OfTables(s) {
      hide Tabled, Can;
      TabledAside(p, s);
    } else if s.SyncFailed? {
      hide Can, FailedNow;
      FailedMoves(p, s.i, s.status, s.arrived, s.response, s.dumped);
    } else {
      hide WorkOn, CanWork, BatchMessage, Joins, Drop, Reqs, Enabled, Apply, Inside, Tabled, FailedNow;
    }
  }

  lemma ReqsAdd(b: Batch, x: Item)
    ensures Reqs(b + [x]) == Reqs(b) + {x.req}
  {
    var all := b + [x];
    assert all[|b|] == x;
    assert forall i | 0 <= i < |b| :: all[i] == b[i];
  }

  lemma ReqsDrop(b: Batch, i: nat)
    requires i < |b|
    ensures Reqs(Drop(b, i)) <= Reqs(b) && b[i].req in Reqs(b)
  {
  }

  predicate Renumbers(s: Step) {
    s.Begin? || s.AcceptAsync? || s.AcceptSync? || s.SyncSent? || s.SyncFailed? || s.SyncAckOk? || s.Reply? || s.Die?
  }

  // The steps that leave the numbers alone.
  lemma NumberedQuiet(p: Pipe, s: Step)
    requires Numbered(p) && SenderInv(p.live) && Can(p, s) && Heedful(p, s) && !Renumbers(s)
    ensures Numbered(Do(p, s))
  {
    hide SenderInv, CoveredBy, WorkOn, CanWork, FailedNow, BatchMessage, Joins, Reqs, Tabled;
    if Appending(Do(p, s)) {
      AppendingBefore(p, s);
    }
    hide Enabled, Apply, Inside, Up;
    if s.Work? && s.target.Live? {
      WorkKeepsRole(p.live, s.sl, BatchMessage(p.removeQueryID, Inserts(p.book, Pipeline.Held(p.live.worker))));
    }
    if OfTables(s) {
      TabledAside(p, s);
    }
    CoveredGrows(p, s);
  }

  // A synchronous insert passes from one place to the next.
  lemma NumberedSync(p: Pipe, s: Step)
    requires Numbered(p) && SenderInv(p.live) && Can(p, s) && Heedful(p, s) && (s.SyncSent? || s.SyncAckOk?)
    requires Reqs(p.doneOk) <= p.live.accepted
    ensures Numbered(Do(p, s))
  {
    hide Reqs, StoredBy, Drop, Apply, Enabled, SenderInv, CoveredBy, WorkOn, CanWork, FailedNow, BatchMessage, Joins;
    if Appending(Do(p, s)) {
      AppendingBefore(p, s);
    }
    CoveredGrows(p, s);
    if s.SyncSent? {
      ReqsDrop(p.syncs, s.i);
      ReqsAdd(p.doneOk, p.syncs[s.i]);
    } else {
      ReqsDrop(p.doneOk, s.i);
    }
  }

  // Or it fails.
  lemma NumberedFailed(p: Pipe, s: Step)
    requires Numbered(p) && SenderInv(p.live) && Can(p, s) && Heedful(p, s) && s.SyncFailed?
    ensures Numbered(Do(p, s))
  {
    hide Reqs, StoredBy, Drop, Apply, Enabled, SenderInv, CoveredBy, WorkOn, CanWork, BatchMessage, Joins;
    CoveredGrows(p, s);
    FailedMoves(p, s.i, s.status, s.arrived, s.response, s.dumped);
    ReqsDrop(p.syncs, s.i);
    hide FailedNow;
  }

  lemma NumberedAfter(p: Pipe, s: Step)
    requires PipeInv(p) && Can(p, s) && Heedful(p, s)
    ensures Numbered(Do(p, s))
  {
    hide Inv, Log, Counted, MemoryBacked, Linear, AnswersKept, Roles, Blank, StoredBy, Reqs, Apply;
    if !Renumbers(s) {
      NumberedQuiet(p, s);
    } else if s.SyncSent? || s.SyncAckOk? {
      NumberedSync(p, s);
    } else if s.SyncFailed? {
      NumberedFailed(p, s);
    } else {
      NumberedEnds(p, s);
    }
  }

  // An append begins, returns, is answered, or is cut off by a crash.
  lemma NumberedEnds(p: Pipe, s: Step)
    requires Numbered(p) && SenderInv(p.live) && Can(p, s) && Heedful(p, s)
    requires s.Begin? || s.AcceptAsync? || s.AcceptSync? || s.Reply? || s.Die?
    ensures Numbered(Do(p, s))
  {
    AcceptedIsCovered(p.live);
    hide SenderInv, CoveredBy, WorkOn, CanWork, FailedNow, BatchMessage, Joins, Reqs;
    if Appending(Do(p, s)) {
      AppendingBefore(p, s);
    }
    hide StoredBy, Reqs;
    CoveredGrows(p, s);
    NoReqs();
    if s.AcceptSync? {
      ReqsAdd(p.syncs, ToItem(Current(p)));
    }
  }

  lemma NoReqs()
    ensures Reqs([]) == {}
  {
  }

  // An append under way began with a number of its own.
  lemma AppendingBefore(p: Pipe, s: Step)
    requires Can(p, s) && Appending(Do(p, s))
    ensures Do(p, s).j.phase.line.parsed.value.payload
         == if s.Begin? then s.req else if Appending(p) then p.j.phase.line.parsed.value.payload else 0
    ensures s.Begin? || Appending(p)
  {
    hide WorkOn, CanWork, FailedNow, BatchMessage, Joins, Tabled, Reqs;
  }

  lemma RolesAfter(p: Pipe, s: Step)
    requires PipeInv(p) && Can(p, s)
    ensures Roles(Do(p, s)) && (Do(p, s).j.stage.Off? || Do(p, s).j.stage.Opened? ==> Blank(Do(p, s)))
  {
    RolesKept(p, s);
    if Do(p, s).j.stage.Off? || Do(p, s).j.stage.Opened? {
      hide Inv, Log, Counted, MemoryBacked, Linear, AnswersKept, AckRule, Numbered, Roles;
      EarlySteps(p, s);
      StaysBlank(p, s);
    }
  }

  // Before the replay only the journal moves.
  lemma EarlySteps(p: Pipe, s: Step)
    requires Can(p, s) && (Do(p, s).j.stage.Off? || Do(p, s).j.stage.Opened?)
    ensures s.Die? || p.j.stage.Off? || p.j.stage.Opened?
  {
  }

  lemma StaysBlank(p: Pipe, s: Step)
    requires Can(p, s) && (s.Die? || Blank(p)) && (Do(p, s).j.stage.Off? || Do(p, s).j.stage.Opened?)
    requires s.Die? || p.j.stage.Off? || p.j.stage.Opened?
    requires Inv(p.j) && Roles(p)
    ensures Blank(Do(p, s))
  {
    hide Can, Do, Blank, Inv, Roles;
    if s.Work? {
      StaysBlankWorked(p, s);
    } else if s.Die? || s.Start? {
      BlankAtEnds(p, s);
    } else {
      StaysBlankElse(p, s);
    }
  }

  lemma StaysBlankWorked(p: Pipe, s: Step)
    requires Can(p, s) && Blank(p) && s.Work?
    ensures Blank(Do(p, s))
  {
    hide WorkOn, Joins, BatchMessage, Reqs, D.Enabled, ToldBy, Enabled, Apply;
    if s.target.Live? && !s.sl.Poll? {
      WorkMoves(p.live, s.sl, BatchMessage(p.removeQueryID, Inserts(p.book, Pipeline.Held(p.live.worker))));
    }
  }

  lemma BlankAtEnds(p: Pipe, s: Step)
    requires Can(p, s) && (s.Die? || (s.Start? && Blank(p)))
    ensures Blank(Do(p, s))
  {
    hide WriteFragment, Unacked, MaxId;
  }

  lemma StaysBlankElse(p: Pipe, s: Step)
    requires Can(p, s) && !s.Work? && !s.Die? && !s.Start? && Blank(p) && (p.j.stage.Off? || p.j.stage.Opened?)
    requires Do(p, s).j.stage.Off? || Do(p, s).j.stage.Opened?
    requires Inv(p.j) && Roles(p)
    ensures Blank(Do(p, s))
  {
    hide WorkOn, CanWork, FailedNow, Joins, BatchMessage, Reqs, Tokens, AckSet, Increasing, Ids, Keep, SameTable;
    hide MaxId, Unacked, Fits, WriteLine, WriteFragment;
  }

  /** Every step of the pipeline keeps its invariant. */
  lemma PipeStep(p: Pipe, s: Step)
    requires PipeInv(p) && Can(p, s) && Heedful(p, s)
    ensures PipeInv(Do(p, s))
  {
    hide SenderInv, Inv, Log, Counted, MemoryBacked, Linear, AnswersKept, AckRule, Numbered, Roles, Blank, Rest;
    hide Apply, Enabled;
    CoveredGrows(p, s);
    JournalPart(p, s);
    LinearAfter(p, s);
    MemoryAfter(p, s);
    AckRuleAfter(p, s);
    AnswersAfter(p, s);
    NumberedAfter(p, s);
    RolesAfter(p, s);
  }

  // ---------------------------------------------------------------- whole runs

  // Every append began in a safe state of the journal.
  ghost predicate HeedfulRun(states: seq<Pipe>, steps: seq<Step>, c: Config) {
    PipeFromEmpty(states, steps, c) && forall i | 0 <= i < |steps| :: Heedful(states[i], steps[i])
  }

  lemma InitKeeps(c: Config)
    ensures PipeInv(Init(c.maxPending, c.dual, c.removeQueryID))
  {
    var p := Init(c.maxPending, c.dual, c.removeQueryID);
    NoReqs();
    NewKeeps(true);
    assert Log(p.j) == [];
    forall id ensures Count(p, id) <= 1 {
      NoneInEmpty(id);
    }
  }

  lemma {:induction false} PipeKeeps(states: seq<Pipe>, steps: seq<Step>, c: Config, n: nat)
    requires HeedfulRun(states, steps, c) && n <= |steps|
    ensures PipeInv(states[n])
  {
    hide PipeInv, Can, Do;
    if n == 0 {
      InitKeeps(c);
    } else {
      PipeKeeps(states, steps, c, n - 1);
      PipeStep(states[n - 1], steps[n - 1]);
    }
  }

  // Every process that served had finished a compaction first, and had a dump prefix of its own.
  ghost predicate PipeCompacted(states: seq<Pipe>, steps: seq<Step>, c: Config) {
    && PipeFromEmpty(states, steps, c)
    && (forall i | 0 <= i < |steps| :: ServesClean(states[i], steps[i]))
    && (forall i | 0 <= i < |steps| :: OwnPrefix(states[i], steps[i]))
  }

  predicate ServesClean(p: Pipe, s: Step) {
    s == Inner(Serve) ==> p.j.clean
  }

  // Ids under acknowledgement were given out by the journal: what is held is pending.
  lemma AcksAreModest(p: Pipe, s: Step)
    requires PipeInv(p) && Can(p, s) && Inside(p, s).Some?
    ensures Modest(p.j, Inside(p, s).value)
  {
    hide Inv, Counted, Log, Linear, AnswersKept, Numbered, Blank, SenderInv, AckRule, Backed, AllBacked;
    match s {
      case Settle(t) =>
        if t.Live? {
          BatchIsModest(p, p.live.worker.b);
        }
      case SyncAckOk(i) => OneIsModest(p, p.doneOk, i);
      case SyncAckBad(i) => OneIsModest(p, p.doneBad, i);
      case _ =>
    }
  }

  lemma BatchIsModest(p: Pipe, b: Batch)
    requires Inv(p.j) && Up(p.j) && Backed(b, Log(p.j))
    ensures forall i | 0 <= i < |b| :: b[i].id <= p.j.nextID
  {
    UnackedIds(Tokens(p.j.wal), AckSet(p.j.ack));
    forall i | 0 <= i < |b| ensures b[i].id <= p.j.nextID {
      InBatchMember(b, i);
      BackedIds(b, Log(p.j), b[i].id);
    }
  }

  lemma OneIsModest(p: Pipe, b: Batch, i: nat)
    requires Inv(p.j) && Up(p.j) && Backed(b, Log(p.j)) && i < |b|
    ensures b[i].id <= p.j.nextID
  {
    BatchIsModest(p, b);
  }

  lemma CleanPart(p: Pipe, s: Step)
    requires PipeInv(p) && CleanInv(p.j) && (p.j.stage.Serving? ==> p.j.clean) && Can(p, s)
    requires ServesClean(p, s) && OwnPrefix(p, s)
    ensures Heedful(p, s) && CleanInv(Do(p, s).j) && (Do(p, s).j.stage.Serving? ==> Do(p, s).j.clean)
  {
    hide Counted, Linear, MemoryBacked, AckRule, AnswersKept, Numbered, Roles, Blank, SenderInv, Modest, Rest, UpInv;
    if Inside(p, s).Some? {
      AcksAreModest(p, s);
      CleanStep(p.j, Inside(p, s).value);
    }
  }

  /** The start-up does its job here too: such a run begins every append in a safe state. */
  lemma {:induction false} CompactedIsHeedful(
      states: seq<Pipe>, steps: seq<Step>, c: Config, n: nat)
    requires PipeCompacted(states, steps, c) && n <= |steps|
    ensures PipeInv(states[n]) && CleanInv(states[n].j) && (states[n].j.stage.Serving? ==> states[n].j.clean)
    ensures forall i | 0 <= i < n :: Heedful(states[i], steps[i])
  {
    hide PipeInv, CleanInv, Can, Do, Heedful;
    if n == 0 {
      InitKeeps(c);
      InitClean(c);
    } else {
      CompactedIsHeedful(states, steps, c, n - 1);
      CleanPart(states[n - 1], steps[n - 1]);
      PipeStep(states[n - 1], steps[n - 1]);
    }
  }

  lemma InitClean(c: Config)
    ensures CleanInv(Init(c.maxPending, c.dual, c.removeQueryID).j)
    ensures !Init(c.maxPending, c.dual, c.removeQueryID).j.stage.Serving?
  {
  }

  // The step dumps the insert on the live side in a text that does not read back.
  predicate Spoils(p: Pipe, s: Step, req: nat) {
    match s
    case Work(Live, DumpOk) =>
      && p.live.worker.Dumping? && req in Reqs(p.live.worker.b)
      && !ReadsBack(BatchMessage(p.removeQueryID, Inserts(p.book, p.live.worker.b)), p.live.worker.response)
    case SyncFailed(i, _, _, response, dumped) =>
      && dumped && i < |p.syncs| && req == p.syncs[i].req
      && !ReadsBack(SyncMessage(Book(p.book, req)), response)
    case _ => false
  }

  lemma SpoiledStep(p: Pipe, s: Step, req: nat)
    requires Can(p, s)
    ensures req in Do(p, s).live.spoiled <==> req in p.live.spoiled || Spoils(p, s, req)
  {
    hide Enabled, Apply, Inside, Up, Drop, ReadsBack, Joins, BatchMessage, SyncMessage, WorkOn, FailedNow, Reqs;
    hide D.Enabled;
    hide Tabled, Restarted;
    match s {
      case SyncFailed(i, status, arrived, response, dumped) =>
        FailedMoves(p, i, status, arrived, response, dumped);
        ReqsOne(p.syncs[i]);
      case Work(t, sl) =>
        if t.Live? {
          WorkMoves(p.live, sl, BatchMessage(p.removeQueryID, Inserts(p.book, Pipeline.Held(p.live.worker))));
        }
      case Start(_, _) =>
      case Die(_) => SpoiledRemains(p.live);
      case _ =>
        hide Rest, Can;
        SameDirectory(p, s);
    }
  }

  lemma SpoiledRemains(s: Sender)
    ensures Restarted(s).spoiled == s.spoiled
  {
  }

  // What is spoiled was spoiled by a step of the run.
  lemma {:induction false} SpoiledMeaning(states: seq<Pipe>, steps: seq<Step>, c: Config, n: nat, req: nat)
    requires PipeFromEmpty(states, steps, c) && n <= |steps|
    ensures req in states[n].live.spoiled <==> exists i | 0 <= i < n :: Spoils(states[i], steps[i], req)
  {
    hide Can, Do, Spoils;
    if n > 0 {
      SpoiledMeaning(states, steps, c, n - 1, req);
      SpoiledStep(states[n - 1], steps[n - 1], req);
    }
  }

  /**
   End to end: in every state of every run, with crashes anywhere, an insert answered 200 is a pending record of the
   files, or was accepted by live ClickHouse, or is told by a file of the live dump directory or of failed/, provided
   that no dump with it on the live side was of a text that does not read back. What reads back is said by the dumped
   request and the response alone.
   */
  lemma AnsweredIsSafe(states: seq<Pipe>, steps: seq<Step>, c: Config, n: nat, req: nat)
    requires HeedfulRun(states, steps, c) && n <= |steps| && req in states[n].answered
    requires forall i | 0 <= i < n :: !Spoils(states[i], steps[i], req)
    ensures var p := states[n];
            || (exists r | r in Log(p.j) :: r.payload == req)
            || req in p.live.accepted || req in FileReqs(p.live.origins, p.live.dir.pending)
            || req in FileReqs(p.live.failedOrigins, p.live.dir.failed)
  {
    hide Can, Do, Spoils, SenderInv, FileReqs;
    PipeKeeps(states, steps, c, n);
    SpoiledMeaning(states, steps, c, n, req);
  }

  /**
   The acknowledgement rule: whatever id is about to be acknowledged, its insert is already stored on the live side,
   or it is a synchronous insert that failed and is not answered 200 on that account, or its dump does not read back.
   */
  lemma AckedIsStored(states: seq<Pipe>, steps: seq<Step>, c: Config, n: nat, r: Record<nat>)
    requires HeedfulRun(states, steps, c) && n <= |steps|
    requires states[n].j.phase.Acking? && r in Log(states[n].j) && r.id in states[n].j.phase.todo
    ensures || r.payload in Stored(states[n])
            || r.payload in states[n].excused - states[n].answered
            || exists i | 0 <= i < n :: Spoils(states[i], steps[i], r.payload)
  {
    hide Can, Do, Spoils, SenderInv, FileReqs;
    PipeKeeps(states, steps, c, n);
    SpoiledMeaning(states, steps, c, n, r.payload);
    assert r.id in Todo(states[n]);
  }

  /**
   Id linearity, and the counter that depends on it: no id is ever in two places of the process, and pendingCount is the
   number of pending records, less those of appends that reported an error.
   */
  lemma IdsAreLinear(states: seq<Pipe>, steps: seq<Step>, c: Config, n: nat, id: nat)
    requires HeedfulRun(states, steps, c) && n <= |steps|
    ensures Count(states[n], id) <= 1
    ensures Counted(states[n].j)
    ensures Count(states[n], id) == 1 ==> id in LogIds(Log(states[n].j))
  {
    PipeKeeps(states, steps, c, n);
    if Count(states[n], id) > 0 {
      HeldIsPending(states[n], id);
    }
  }
}
