/**
 What the pipeline sends: every batch is of one table, so that each of its inserts is sent under its own statement.
 */
module PipelineMessages {
  import opened Options
  import opened Wal
  import opened JournalMachine
  import opened JournalSafety
  import opened Messages
  import opened Pipeline
  import opened PipelineSafety
  import opened PipelineHeld
  import Text
  import BatchKey
  import Statement
  import SyncInsert

  // What is known of the inserts, and how they are put in tables.
  datatype View = View(removeQueryID: bool, book: map<nat, Ins>)

  function Of(p: Pipe): View {
    View(p.removeQueryID, p.book)
  }

  predicate Seen(v: View, b: Batch) {
    forall k | 0 <= k < |b| :: b[k].req in v.book
  }

  // The inserts of a batch have been seen, and all are of the table of the first.
  predicate OneTable(v: View, b: Batch) {
    && Seen(v, b)
    && forall k | 0 < k < |b| :: SameTable(v.removeQueryID, Book(v.book, b[0].req), Book(v.book, b[k].req))
  }

  predicate AllOneTable(v: View, bs: seq<Batch>) {
    forall i | 0 <= i < |bs| :: OneTable(v, bs[i])
  }

  predicate TablesUniform(v: View, p: Pipe) {
    AllOneTable(v, p.tables) && AllOneTable(v, p.retired) && AllOneTable(v, p.unsent) && Seen(v, p.pushes)
  }

  predicate SenderUniform(v: View, s: Sender) {
    AllOneTable(v, s.queue) && OneTable(v, Pipeline.Held(s.worker))
  }

  predicate SyncsSeen(v: View, p: Pipe) {
    Seen(v, p.syncs) && Seen(v, p.doneOk) && Seen(v, p.doneBad)
  }

  // The journal holds records of inserts that were seen.
  ghost predicate JournalSeen(v: View, j: St<nat>) {
    && (forall r | r in Log(j) :: r.payload in v.book)
    && ((j.phase.Writing? || j.phase.Written?) && j.phase.line.parsed.Some? ==>
          j.phase.line.parsed.value.payload in v.book)
  }

  ghost predicate UniformIn(v: View, p: Pipe) {
    && TablesUniform(v, p) && SenderUniform(v, p.live) && SenderUniform(v, p.backup) && AllOneTable(v, p.copies)
    && SyncsSeen(v, p) && JournalSeen(v, p.j)
  }

  ghost predicate Uniform(p: Pipe) {
    UniformIn(Of(p), p)
  }

  // ---------------------------------------------------------------- batches

  lemma OneIsUniform(v: View, x: Item)
    requires x.req in v.book
    ensures OneTable(v, [x]) && OneTable(v, [])
  {
  }

  lemma NoneIsUniform(v: View)
    ensures OneTable(v, []) && AllOneTable(v, []) && Seen(v, [])
  {
  }

  lemma OneMore(v: View, bs: seq<Batch>, b: Batch)
    requires AllOneTable(v, bs) && OneTable(v, b)
    ensures AllOneTable(v, bs + [b])
  {
    hide OneTable;
  }

  lemma OneLess(v: View, bs: seq<Batch>, i: nat)
    requires AllOneTable(v, bs) && i < |bs|
    ensures AllOneTable(v, Drop(bs, i)) && OneTable(v, bs[i])
  {
    hide OneTable;
  }

  lemma SeenDrop(v: View, b: Batch, i: nat)
    requires Seen(v, b) && i < |b|
    ensures Seen(v, Drop(b, i)) && b[i].req in v.book
  {
  }

  lemma SeenAdd(v: View, b: Batch, c: Batch)
    requires Seen(v, b) && Seen(v, c)
    ensures Seen(v, b + c)
  {
  }

  lemma Joined(v: View, b: Batch, x: Item)
    requires OneTable(v, b) && x.req in v.book
    requires forall k | 0 <= k < |b| :: SameTable(v.removeQueryID, Book(v.book, x.req), Book(v.book, b[k].req))
    ensures OneTable(v, b + [x])
  {
    hide SyncInsert.KeyOf;
    SeenAdd(v, b, [x]);
    if b != [] {
      assert SameTable(v.removeQueryID, Book(v.book, x.req), Book(v.book, b[0].req));
    }
  }

  // ---------------------------------------------------------------- the steps

  lemma TablesStep(p: Pipe, s: Step)
    requires Can(p, s) && OfTables(s) && TablesUniform(Of(p), p)
    ensures TablesUniform(Of(p), Tabled(p, s))
  {
    hide SameTable, OneTable, AllOneTable, Seen, Drop, Up, Enabled;
    var v := Of(p);
    NoneIsUniform(v);
    match s {
      case Push(i, t) =>
        SeenDrop(v, p.pushes, i);
        OneLess(v, p.tables, t);
        Joined(v, p.tables[t], p.pushes[i]);
        Replaced(v, p.tables, t, p.tables[t] + [p.pushes[i]]);
      case PushNew(i) =>
        SeenDrop(v, p.pushes, i);
        OneIsUniform(v, p.pushes[i]);
        OneMore(v, p.tables, [p.pushes[i]]);
      case PushOpaque(i) =>
        SeenDrop(v, p.pushes, i);
        OneIsUniform(v, p.pushes[i]);
        OneMore(v, p.unsent, [p.pushes[i]]);
      case Flush(t) =>
        OneLess(v, p.tables, t);
        Replaced(v, p.tables, t, []);
        OneMore(v, p.unsent, p.tables[t]);
      case Clean(t) =>
        OneLess(v, p.tables, t);
        OneMore(v, p.retired, p.tables[t]);
      case LateFlush(t) =>
        OneLess(v, p.retired, t);
        OneMore(v, p.unsent, p.retired[t]);
      case Forget(t) => OneLess(v, p.retired, t);
    }
  }

  lemma Replaced(v: View, bs: seq<Batch>, i: nat, b: Batch)
    requires AllOneTable(v, bs) && OneTable(v, b) && i < |bs|
    ensures AllOneTable(v, bs[i := b])
  {
    hide OneTable;
  }

  lemma WorkStep(v: View, s: Sender, l: SenderLabel, m: Message)
    requires CanWork(s, l) && SenderUniform(v, s)
    ensures SenderUniform(v, WorkOn(s, l, m))
  {
    hide OneTable, WorkOn;
    NoneIsUniform(v);
    WorkMoves(s, l, m);
  }

  lemma SyncStep(p: Pipe, s: Step)
    requires Can(p, s) && UniformIn(Of(p), p)
    requires s.SyncSent? || s.SyncFailed? || s.SyncAckOk? || s.SyncAckBad?
    ensures SyncsSeen(Of(p), Rest(p, s)) && AllOneTable(Of(p), Rest(p, s).copies)
  {
    hide OneTable, AllOneTable, Seen, Drop, Enabled, Up, JournalSeen, TablesUniform, SenderUniform;
    var v := Of(p);
    match s {
      case SyncSent(i) =>
        SeenDrop(v, p.syncs, i);
        OneIsSeen(v, p.syncs[i]);
        SeenAdd(v, p.doneOk, [p.syncs[i]]);
        OneMore(v, p.copies, [p.syncs[i]]);
      case SyncFailed(i, status, arrived, response, dumped) =>
        hide FailedNow;
        FailedMoves(p, i, status, arrived, response, dumped);
        SeenDrop(v, p.syncs, i);
        OneIsSeen(v, p.syncs[i]);
        SeenAdd(v, p.doneBad, [p.syncs[i]]);
      case SyncAckOk(i) => SeenDrop(v, p.doneOk, i);
      case SyncAckBad(i) => SeenDrop(v, p.doneBad, i);
    }
  }

  lemma OneIsSeen(v: View, x: Item)
    requires x.req in v.book
    ensures Seen(v, [x]) && OneTable(v, [x])
  {
  }

  lemma SendStep(p: Pipe, s: Step)
    requires Can(p, s) && UniformIn(Of(p), p) && (s.Send? || s.SendCopy? || s.Settle?)
    ensures var q := Rest(p, s);
            && AllOneTable(Of(p), q.unsent) && AllOneTable(Of(p), q.copies)
            && SenderUniform(Of(p), q.live) && SenderUniform(Of(p), q.backup)
  {
    hide OneTable, AllOneTable, Seen, Drop, Enabled, Up, JournalSeen, SyncsSeen;
    var v := Of(p);
    NoneIsUniform(v);
    match s {
      case Send(u) =>
        OneLess(v, p.unsent, u);
        OneMore(v, p.live.queue, p.unsent[u]);
        OneMore(v, p.copies, p.unsent[u]);
      case SendCopy(u) =>
        OneLess(v, p.copies, u);
        OneMore(v, p.backup.queue, p.copies[u]);
      case Settle(_) =>
    }
  }

  lemma EnterStep(p: Pipe, s: Step)
    requires Can(p, s) && UniformIn(Of(p), p) && Inv(p.j) && (s.AcceptAsync? || s.AcceptSync? || s.Replayed?)
    ensures Seen(Of(p), Rest(p, s).pushes) && Seen(Of(p), Rest(p, s).syncs)
  {
    hide AllOneTable, OneTable, Inv, Log, ReplayedRecords, SenderUniform;
    var v := Of(p);
    if s.Replayed? {
      ReplayIsLog(p.j);
      assert forall k | 0 <= k < |ReplayedRecords(p.j)| :: ReplayedRecords(p.j)[k] in Log(p.j);
    }
  }

  // A record that is new in the log was being written.
  lemma LogSource(p: Pipe, s: Step, r: Record<nat>)
    requires PipeInv(p) && Can(p, s) && Heedful(p, s) && r in Log(Do(p, s).j)
    ensures r in Log(p.j) || (p.j.phase.Writing? && p.j.phase.line.parsed == Some(r))
  {
    hide Can, Do, PipeInv, Log, EventOf, Heedful, Inside;
    JournalPart(p, s);
    SameJournal(p, s);
    hide JournalAfter;
    if Inside(p, s).Some? {
      var l := Inside(p, s).value;
      BeginIsCareful(p, s);
      if EventOf(p.j, l).Acked? {
        WithoutMember(Log(p.j), EventOf(p.j, l).id);
      } else if EventOf(p.j, l).Logged? {
        LoggedFrom(p.j, l);
      }
    }
  }

  lemma LoggedFrom(j: St<nat>, l: Label<nat>)
    requires Enabled(j, l) && EventOf(j, l).Logged?
    ensures j.phase.Writing? && j.phase.line.parsed == Some(EventOf(j, l).r)
  {
  }

  lemma JournalStep(p: Pipe, s: Step)
    requires PipeInv(p) && Can(p, s) && Heedful(p, s) && JournalSeen(Of(p), p.j)
    ensures JournalSeen(Of(Do(p, s)), Do(p, s).j)
  {
    hide PipeInv, Can, Do, Heedful, Log;
    BookAfter(p, s);
    forall r | r in Log(Do(p, s).j) ensures r.payload in Do(p, s).book {
      LogSource(p, s, r);
    }
    LineSeen(p, s);
  }

  lemma LineSeen(p: Pipe, s: Step)
    requires Can(p, s) && JournalSeen(Of(p), p.j)
    ensures Appending(Do(p, s)) ==> Do(p, s).j.phase.line.parsed.value.payload in Do(p, s).book
  {
    hide Can, Do, Log;
    BookAfter(p, s);
    if Appending(Do(p, s)) {
      AppendingBefore(p, s);
    }
  }

  // The book gains the insert that begins, and nothing is changed in it.
  lemma BookAfter(p: Pipe, s: Step)
    requires Can(p, s)
    ensures Do(p, s).removeQueryID == p.removeQueryID
    ensures if s.Begin? then s.req !in p.book && Do(p, s).book == p.book[s.req := s.ins] else Do(p, s).book == p.book
  {
    if OfTables(s) {
      hide Tabled, Can;
      TabledAside(p, s);
    } else if s.SyncFailed? {
      hide Can, FailedNow;
      FailedMoves(p, s.i, s.status, s.arrived, s.response, s.dumped);
    } else if s.Begin? {
      hide Enabled, Apply;
    } else {
      BookStays(p, s);
    }
  }

  lemma BookStays(p: Pipe, s: Step)
    requires Can(p, s) && !OfTables(s) && !s.SyncFailed? && !s.Begin?
    ensures Do(p, s).book == p.book && Do(p, s).removeQueryID == p.removeQueryID
  {
    hide WorkOn, CanWork, BatchMessage, Joins, Drop, Reqs, Enabled, Apply, Inside, Tabled, FailedNow, Up, ToItems;
  }

  // The step changes nothing but this, apart from the journal and what matters to no batch.
  lemma UniformStep(p: Pipe, s: Step)
    requires PipeInv(p) && Can(p, s) && Heedful(p, s) && Uniform(p)
    ensures Uniform(Do(p, s))
  {
    hide PipeInv, Heedful, JournalSeen;
    JournalStep(p, s);
    BookAfter(p, s);
    if s.Begin? {
      BeginStep(p, s);
    } else {
      assert Inv(p.j) by {
        JournalInv(p);
      }
      UniformElse(p, s);
    }
  }

  lemma JournalInv(p: Pipe)
    requires PipeInv(p)
    ensures Inv(p.j)
  {
  }

  lemma BeginStep(p: Pipe, s: Step)
    requires Can(p, s) && s.Begin? && UniformIn(Of(p), p) && s.req !in p.book
    requires JournalSeen(Of(Do(p, s)), Do(p, s).j)
    ensures UniformIn(Of(Do(p, s)), Do(p, s))
  {
    hide JournalSeen, SameTable, Enabled, Apply;
  }

  lemma UniformElse(p: Pipe, s: Step)
    requires Can(p, s) && !s.Begin? && UniformIn(Of(p), p) && Inv(p.j)
    requires Of(Do(p, s)) == Of(p) && JournalSeen(Of(p), Do(p, s).j)
    ensures UniformIn(Of(Do(p, s)), Do(p, s))
  {
    var v := Of(p);
    hide JournalSeen, Inv;
    NoneIsUniform(v);
    if OfTables(s) {
      TablesStep(p, s);
      TabledAside(p, s);
      hide Tabled, TablesUniform, SenderUniform, AllOneTable, SyncsSeen, Can;
    } else if s.Work? {
      hide Can, Do;
      UniformWorked(p, s);
    } else if s.Send? || s.SendCopy? || s.Settle? {
      hide Can, Do;
      UniformSent(p, s);
    } else if s.SyncSent? || s.SyncFailed? || s.SyncAckOk? || s.SyncAckBad? {
      SyncStep(p, s);
      SyncAside(p, s);
      hide Can, Do, AllOneTable, SyncsSeen, OneTable;
    } else {
      UniformRest(p, s);
    }
  }

  lemma UniformSent(p: Pipe, s: Step)
    requires Can(p, s) && UniformIn(Of(p), p) && (s.Send? || s.SendCopy? || s.Settle?)
    requires Of(Do(p, s)) == Of(p) && JournalSeen(Of(p), Do(p, s).j)
    ensures UniformIn(Of(Do(p, s)), Do(p, s))
  {
    hide JournalSeen;
    SendStep(p, s);
    hide SenderUniform, AllOneTable, Enabled, Apply, Drop, Seen;
  }

  lemma UniformWorked(p: Pipe, s: Step)
    requires Can(p, s) && s.Work? && UniformIn(Of(p), p)
    requires Of(Do(p, s)) == Of(p) && JournalSeen(Of(p), Do(p, s).j)
    ensures UniformIn(Of(Do(p, s)), Do(p, s))
  {
    hide JournalSeen, AllOneTable, OneTable, Seen, WorkOn, CanWork, Enabled, Apply;
    var h := Get(p, s.target);
    WorkStep(Of(p), h, s.sl, BatchMessage(p.removeQueryID, Inserts(p.book, Pipeline.Held(h.worker))));
    hide SenderUniform, BatchMessage;
  }

  lemma SyncAside(p: Pipe, s: Step)
    requires Can(p, s) && (s.SyncSent? || s.SyncFailed? || s.SyncAckOk? || s.SyncAckBad?)
    ensures var q := Do(p, s);
            && q.tables == p.tables && q.retired == p.retired && q.unsent == p.unsent && q.pushes == p.pushes
            && q.live.queue == p.live.queue && q.live.worker == p.live.worker && q.backup == p.backup
            && q.copies == Rest(p, s).copies && q.syncs == Rest(p, s).syncs
            && q.doneOk == Rest(p, s).doneOk && q.doneBad == Rest(p, s).doneBad
  {
    hide Enabled, Apply, Drop, FailedNow;
    if s.SyncFailed? {
      FailedMoves(p, s.i, s.status, s.arrived, s.response, s.dumped);
    }
  }

  lemma UniformRest(p: Pipe, s: Step)
    requires Can(p, s) && !s.Begin? && UniformIn(Of(p), p) && Inv(p.j)
    requires Of(Do(p, s)) == Of(p) && JournalSeen(Of(p), Do(p, s).j)
    requires s.Inner? || s.Start? || s.AcceptAsync? || s.AcceptSync? || s.Replayed? || s.Reply? || s.Die?
    ensures UniformIn(Of(Do(p, s)), Do(p, s))
  {
    var v := Of(p);
    NoneIsUniform(v);
    if s.AcceptAsync? || s.AcceptSync? || s.Replayed? {
      EnterStep(p, s);
    }
    hide JournalSeen, Inv, AllOneTable, OneTable, Seen, Enabled, Apply, ToItems;
  }

  // ---------------------------------------------------------------- over runs

  lemma {:induction false} BatchesAreUniform(states: seq<Pipe>, steps: seq<Step>, c: Config, n: nat)
    requires HeedfulRun(states, steps, c) && n <= |steps|
    ensures Uniform(states[n])
  {
    hide PipeInv, Can, Do, Uniform, Heedful;
    if n == 0 {
      StartsUniform(c);
    } else {
      PipeKeeps(states, steps, c, n - 1);
      BatchesAreUniform(states, steps, c, n - 1);
      UniformStep(states[n - 1], steps[n - 1]);
    }
  }

  lemma StartsUniform(c: Config)
    ensures Uniform(Init(c.maxPending, c.dual, c.removeQueryID))
  {
    assert Log(Init(c.maxPending, c.dual, c.removeQueryID).j) == [];
  }

  // The batches on their way to the servers, backup included.
  function Batches(p: Pipe): seq<Batch> {
    p.unsent + p.live.queue + [Pipeline.Held(p.live.worker)] + p.copies + p.backup.queue
    + [Pipeline.Held(p.backup.worker)]
  }

  /**
   What is sent, or dumped, for a batch: in every state of every run each insert of it is sent under its own statement
   and its own parameters, with the contents of the batch in its order; or, if it is verbatim, alone and as it came.
   */
  lemma SentUnderOwnStatement(
      states: seq<Pipe>, steps: seq<Step>, c: Config, n: nat, b: Batch, k: nat)
    requires HeedfulRun(states, steps, c) && n <= |steps| && b in Batches(states[n]) && k < |b|
    ensures var p := states[n];
            var inserts := Inserts(p.book, b);
            var i, m := inserts[k], BatchMessage(p.removeQueryID, inserts);
            && b[k].req in p.book && i == p.book[b[k].req]
            && if i.verbatim then m == Message(i.params, i.content) && |b| == 1
               else
                 var (query, rest) := BatchKey.Separated(SyncInsert.KeyOf(p.removeQueryID, i.params));
                 var delimiter := if Statement.GetFormat(query) == "RowBinary" then "" else "\n";
                 m == Message(rest, query + "\n" + Text.Join(Contents(inserts), delimiter))
  {
    hide BatchMessage, Can, Do, JournalSeen, BatchKey.Separated, SyncInsert.KeyOf, Statement.GetFormat, Text.Join;
    hide Contents;
    assert n < |states|;
    hide HeedfulRun;
    BatchesAreUniform(states, steps, c, n);
    var p := states[n];
    BatchIsOne(p, b);
    MessageMeaning(p.removeQueryID, Inserts(p.book, b), k);
  }

  lemma BatchIsOne(p: Pipe, b: Batch)
    requires Uniform(p) && b in Batches(p)
    ensures OneTable(Of(p), b)
  {
    hide JournalSeen, OneTable;
  }
}
