/** Runs in which all goes well: two inserts in one batch, and a synchronous insert. */
module DeliveryRuns {
  import opened Options
  import opened Wal
  import opened JournalMachine
  import opened JournalSafety
  import opened Messages
  import opened Pipeline
  import opened PipelineSafety
  import opened PipelineRuns
  import opened PipelineLimits
  import SyncInsert

  // ---------------------------------------------------------------- two inserts, one batch

  // The limit leaves room for both.
  predicate HasRoom(c: Config, n: nat) {
    c.maxPending <= 0 || c.maxPending >= n
  }

  function LineOf(id: nat, a: Arrival): Filled<nat> {
    Line(Some(Record(id, a.req)), a.size)
  }

  function Pair(a: Arrival, b: Arrival): Batch {
    [Item(1, a.req), Item(2, b.req)]
  }

  // The journal with both records pending, and with both acknowledged.
  function TwoPending(maxPending: int, a: Arrival, b: Arrival): St<nat> {
    Server(maxPending, 2).(wal := File([LineOf(1, a), LineOf(2, b)], None), pendingCount := 2)
  }

  function TwoAcked(maxPending: int, a: Arrival, b: Arrival): St<nat> {
    TwoPending(maxPending, a, b).(ack := [1, 2], acked := {1, 2}, pendingCount := 0, acksSince := 2)
  }

  function BothAccepted(p: Pipe, a: Arrival, b: Arrival): Pipe {
    p.(j := TwoPending(p.j.maxPending, a, b), book := p.book[a.req := a.ins][b.req := b.ins], pushes := Pair(a, b),
       answered := p.answered + {a.req} + {b.req})
  }

  lemma SecondAccepted(p: Pipe, a: Arrival, b: Arrival)
    requires Unused(p) && p.j == Server(p.j.maxPending, 0) && a.req != b.req && b.req !in p.book
    requires p.j.maxPending <= 0 || p.j.maxPending >= 2
    ensures Run(AcceptedPipe(p, a.req, a.size, a.ins), AcceptSteps(b.req, b.size, b.ins)) == Some(BothAccepted(p, a, b))
  {
    hide Run, Can, Do;
    var p0, line := AcceptedPipe(p, a.req, a.size, a.ins), LineOf(2, b);
    var p1 := p0.(j := p0.j.(nextID := 2, phase := Writing(line)), book := p0.book[b.req := b.ins]);
    var p2 := p1.(j := p1.j.(wal := File([LineOf(1, a), line], None), phase := Written(line)));
    SecondBegun(p0, b);
    SecondWritten(p1, LineOf(1, a), line);
    SecondReturned(p2, Item(1, a.req), line);
    RunThree(p0, Begin(b.req, b.size, b.ins), p1, Inner(Write), p2, AcceptAsync, BothAccepted(p, a, b));
  }

  lemma SecondBegun(p: Pipe, b: Arrival)
    requires p.j.stage.Serving? && p.j.phase.Idle? && p.j.nextID == 1 && b.req !in p.book
    requires p.j.maxPending <= 0 || p.j.pendingCount < p.j.maxPending
    ensures Can(p, Begin(b.req, b.size, b.ins))
    ensures Do(p, Begin(b.req, b.size, b.ins))
         == p.(j := p.j.(nextID := 2, phase := Writing(LineOf(2, b))), book := p.book[b.req := b.ins])
  {
  }

  lemma SecondWritten(p: Pipe, first: Line<nat>, line: Filled<nat>)
    requires p.j.wal == File([first], None) && p.j.phase == Writing(line) && p.j.writer.Ready?
    ensures Can(p, Inner(Write))
    ensures Do(p, Inner(Write)) == p.(j := p.j.(wal := File([first, line], None), phase := Written(line)))
  {
    assert [first] + [line] == [first, line];
  }

  lemma SecondReturned(p: Pipe, x: Item, line: Filled<nat>)
    requires p.pushes == [x] && p.j.phase == Written(line) && line.parsed.Some? && p.j.pendingCount == 1 && Up(p.j)
    ensures Can(p, AcceptAsync)
    ensures Do(p, AcceptAsync)
         == p.(j := p.j.(phase := Idle, pendingCount := 2), pushes := [x, ToItem(line.parsed.value)],
               answered := p.answered + {line.parsed.value.payload})
  {
    assert [x] + [ToItem(line.parsed.value)] == [x, ToItem(line.parsed.value)];
  }

  function GatherSteps(): seq<Step> {
    [PushNew(0), Push(0, 0), Flush(0)]
  }

  function Gathered(p: Pipe, x: Item, y: Item): Pipe {
    p.(pushes := [], tables := [[]], unsent := [[x, y]])
  }

  lemma GatherRuns(p: Pipe, x: Item, y: Item)
    requires Up(p.j) && p.pushes == [x, y] && p.tables == [] && p.unsent == []
    requires SameTable(p.removeQueryID, Book(p.book, x.req), Book(p.book, y.req))
    ensures Run(p, GatherSteps()) == Some(Gathered(p, x, y))
  {
    hide Run, Can, Do;
    var p1, p2 := p.(pushes := [y], tables := [[x]]), p.(pushes := [], tables := [[x, y]]);
    FirstPushed(p, x, y);
    SecondPushed(p1, x, y);
    PairFlushed(p2, x, y);
    RunThree(p, PushNew(0), p1, Push(0, 0), p2, Flush(0), Gathered(p, x, y));
  }

  lemma FirstPushed(p: Pipe, x: Item, y: Item)
    requires Up(p.j) && p.pushes == [x, y] && p.tables == [] && !Book(p.book, x.req).verbatim
    ensures Can(p, PushNew(0)) && Do(p, PushNew(0)) == p.(pushes := [y], tables := [[x]])
  {
    hide Up;
    assert Drop([x, y], 0) == [y] && [] + [[x]] == [[x]];
  }

  lemma SecondPushed(p: Pipe, x: Item, y: Item)
    requires Up(p.j) && p.pushes == [y] && p.tables == [[x]]
    requires SameTable(p.removeQueryID, Book(p.book, x.req), Book(p.book, y.req))
    ensures Can(p, Push(0, 0)) && Do(p, Push(0, 0)) == p.(pushes := [], tables := [[x, y]])
  {
    hide Up, SyncInsert.KeyOf;
    PushedTogether(x, y);
    hide Drop;
  }

  lemma PushedTogether(x: Item, y: Item)
    ensures Drop([y], 0) == [] && [x] + [y] == [x, y] && [[x]][0 := [x] + [y]] == [[x, y]]
  {
  }

  lemma PairFlushed(p: Pipe, x: Item, y: Item)
    requires Up(p.j) && p.tables == [[x, y]] && p.unsent == []
    ensures Can(p, Flush(0)) && Do(p, Flush(0)) == p.(tables := [[]], unsent := [[x, y]])
  {
    hide Up;
    assert [[x, y]][0 := []] == [[]] && [] + [[x, y]] == [[x, y]];
  }

  function SendSteps(): seq<Step> {
    [Send(0), Work(Live, Poll), Work(Live, SendOk)]
  }

  function SentPipe(p: Pipe, b: Batch): Pipe {
    p.(unsent := [], copies := CopyTo(p, b),
       live := p.live.(queue := [], worker := Storing(b), accepted := p.live.accepted + Reqs(b),
                       enqueued := p.live.enqueued + multiset{b}))
  }

  lemma SendRuns(p: Pipe, b: Batch)
    requires Up(p.j) && p.unsent == [b] && p.live.queue == [] && p.live.worker.Resting?
    ensures Run(p, SendSteps()) == Some(SentPipe(p, b))
  {
    hide Run, Can, Do, CopyTo;
    var l1 := p.live.(queue := [b], enqueued := p.live.enqueued + multiset{b});
    var p1 := p.(unsent := [], copies := CopyTo(p, b), live := l1);
    var p2 := p1.(live := l1.(queue := [], worker := Sending(b)));
    HandedOver(p, b);
    Taken(p1, Live, b);
    RunThree(p, Send(0), p1, Work(Live, Poll), p2, Work(Live, SendOk), SentPipe(p, b));
  }

  lemma HandedOver(p: Pipe, b: Batch)
    requires Up(p.j) && p.unsent == [b] && p.live.queue == []
    ensures Can(p, Send(0))
    ensures Do(p, Send(0))
         == p.(unsent := [], copies := CopyTo(p, b),
               live := p.live.(queue := [b], enqueued := p.live.enqueued + multiset{b}))
  {
    hide Up, CopyTo;
    assert Drop([b], 0) == [] && [] + [b] == [b];
  }

  // A sender polls the one batch of its queue, and the server takes it.
  lemma Taken(p: Pipe, t: Target, b: Batch)
    requires Up(p.j) && Get(p, t).queue == [b] && Get(p, t).worker.Resting?
    ensures var s := Get(p, t);
            var p1 := Put(p, t, s.(queue := [], worker := Sending(b)));
            && Can(p, Work(t, Poll)) && Do(p, Work(t, Poll)) == p1
            && Can(p1, Work(t, SendOk))
            && Do(p1, Work(t, SendOk))
               == Put(p, t, s.(queue := [], worker := Storing(b), accepted := s.accepted + Reqs(b)))
  {
    hide BatchMessage, Up, Inserts, Reqs;
    assert [b][1..] == [];
  }

  function SettleSteps(): seq<Step> {
    [Settle(Live), Inner(AckNext), Inner(AckNext)] + [Inner(AckEnd(false))]
  }

  lemma SettleRuns(p: Pipe, a: Arrival, b: Arrival)
    requires p.j == TwoPending(p.j.maxPending, a, b) && p.live.worker == Storing(Pair(a, b)) && p.live.hasJournal
    ensures Run(p, SettleSteps())
         == Some(p.(j := TwoAcked(p.j.maxPending, a, b), live := p.live.(worker := Resting)))
  {
    hide Run, Can, Do;
    var p1 := p.(j := p.j.(phase := Acking([1, 2], 0)), live := p.live.(worker := Resting));
    var p2 := p1.(j := p.j.(ack := [1], acked := {1}, pendingCount := 1, phase := Acking([2], 1)));
    var p3 := p1.(j := p.j.(ack := [1, 2], acked := {1, 2}, pendingCount := 0, phase := Acking([], 2)));
    var p4 := p1.(j := TwoAcked(p.j.maxPending, a, b));
    PairSettles(p, a, b);
    OneMoreAck(p1, [1, 2], 1);
    OneMoreAck(p2, [2], 2);
    AcksEnd(p3);
    assert {1} + {2} == {1, 2} && [1] + [2] == [1, 2] && {} + {1} == {1} && [] + [1] == [1];
    RunThree(p, Settle(Live), p1, Inner(AckNext), p2, Inner(AckNext), p3);
    RunSnoc(p, [Settle(Live), Inner(AckNext), Inner(AckNext)], Inner(AckEnd(false)));
  }

  lemma PairSettles(p: Pipe, a: Arrival, b: Arrival)
    requires Up(p.j) && p.j.phase.Idle? && p.live.worker == Storing(Pair(a, b)) && p.live.hasJournal
    ensures Can(p, Settle(Live))
    ensures Do(p, Settle(Live)) == p.(j := p.j.(phase := Acking([1, 2], 0)), live := p.live.(worker := Resting))
  {
    assert IdsOf(Pair(a, b)) == [1, 2];
  }

  lemma OneMoreAck(p: Pipe, todo: seq<nat>, id: nat)
    requires p.j.phase.Acking? && p.j.phase.todo == todo != [] && todo[0] == id && id != 0 && id !in p.j.acked
    ensures Can(p, Inner(AckNext))
    ensures Do(p, Inner(AckNext))
         == p.(j := p.j.(ack := p.j.ack + [id], acked := p.j.acked + {id}, pendingCount := p.j.pendingCount - 1,
                         phase := Acking(todo[1..], p.j.phase.wrote + 1)))
  {
  }

  lemma AcksEnd(p: Pipe)
    requires p.j.phase.Acking? && p.j.phase.todo == [] && p.j.phase.wrote < 100 && p.j.acksSince == 0
    ensures Can(p, Inner(AckEnd(false)))
    ensures Do(p, Inner(AckEnd(false))) == p.(j := p.j.(acksSince := p.j.phase.wrote, phase := Idle))
  {
  }

  // From the acceptance of the two to the end of their acknowledgement.
  function PairSteps(a: Arrival, b: Arrival): seq<Step> {
    AcceptSteps(a.req, a.size, a.ins) + AcceptSteps(b.req, b.size, b.ins) + GatherSteps() + SendSteps() + SettleSteps()
  }

  // What the live side of the process is at the end.
  function Delivered(p: Pipe, a: Arrival, b: Arrival): Pipe {
    var sent := SentPipe(Gathered(BothAccepted(p, a, b), Item(1, a.req), Item(2, b.req)), Pair(a, b));
    sent.(j := TwoAcked(p.j.maxPending, a, b), live := sent.live.(worker := Resting))
  }

  lemma PairRuns(p: Pipe, a: Arrival, b: Arrival)
    requires Unused(p) && p.j == Server(p.j.maxPending, 0) && p.live.hasJournal && p.book == map[] && a.req != b.req
    requires p.j.maxPending <= 0 || p.j.maxPending >= 2
    requires SameTable(p.removeQueryID, a.ins, b.ins)
    ensures Run(p, PairSteps(a, b)) == Some(Delivered(p, a, b))
    ensures Along(p, PairSteps(a, b), ServesClean) && Along(p, PairSteps(a, b), OwnPrefix)
  {
    hide Run, AcceptSteps, GatherSteps, SendSteps, SettleSteps, Reqs, CopyTo, TwoPending, TwoAcked, Along;
    var first, second := AcceptSteps(a.req, a.size, a.ins), AcceptSteps(b.req, b.size, b.ins);
    var x, y := Item(1, a.req), Item(2, b.req);
    var p1, p2 := AcceptedPipe(p, a.req, a.size, a.ins), BothAccepted(p, a, b);
    AcceptRuns(p, a.req, a.size, a.ins);
    SecondAccepted(p, a, b);
    RunThen(p, first, p1, second, p2);
    PendingIsUp(p.j.maxPending, a, b);
    GatherRuns(p2, x, y);
    var p3 := Gathered(p2, x, y);
    RunThen(p, first + second, p2, GatherSteps(), p3);
    SendRuns(p3, Pair(a, b));
    var p4 := SentPipe(p3, Pair(a, b));
    RunThen(p, first + second + GatherSteps(), p3, SendSteps(), p4);
    SettleRuns(p4, a, b);
    RunThen(p, first + second + GatherSteps() + SendSteps(), p4, SettleSteps(), Delivered(p, a, b));
    PairQuiet(a, b);
    AlongQuiet(p, PairSteps(a, b), ServesClean);
    AlongQuiet(p, PairSteps(a, b), OwnPrefix);
  }

  lemma PendingIsUp(maxPending: int, a: Arrival, b: Arrival)
    ensures Up(TwoPending(maxPending, a, b)) && TwoPending(maxPending, a, b).maxPending == maxPending
    ensures TwoPending(maxPending, a, b).phase.Idle?
  {
  }

  lemma PairQuiet(a: Arrival, b: Arrival)
    ensures forall q, s | s in PairSteps(a, b) :: ServesClean(q, s)
    ensures forall q, s | s in PairSteps(a, b) :: OwnPrefix(q, s)
  {
  }

  // The backup gets its copy.
  function CopySteps(): seq<Step> {
    [SendCopy(0), Work(Backup, Poll), Work(Backup, SendOk)] + [Settle(Backup)]
  }

  function Copied(p: Pipe, b: Batch): Pipe {
    p.(copies := [],
       backup := p.backup.(accepted := p.backup.accepted + Reqs(b), enqueued := p.backup.enqueued + multiset{b}))
  }

  lemma CopyRuns(p: Pipe, b: Batch)
    requires Up(p.j) && p.copies == [b] && p.backup.queue == [] && p.backup.worker.Resting? && !p.backup.hasJournal
    ensures Run(p, CopySteps()) == Some(Copied(p, b))
    ensures Along(p, CopySteps(), ServesClean) && Along(p, CopySteps(), OwnPrefix)
  {
    hide Run, Can, Do, Along, Reqs;
    var l1 := p.backup.(queue := [b], enqueued := p.backup.enqueued + multiset{b});
    var p1 := p.(copies := [], backup := l1);
    var p2 := p1.(backup := l1.(queue := [], worker := Sending(b)));
    var p3 := p1.(backup := l1.(queue := [], worker := Storing(b), accepted := l1.accepted + Reqs(b)));
    CopyHandedOver(p, b);
    Taken(p1, Backup, b);
    RunThree(p, SendCopy(0), p1, Work(Backup, Poll), p2, Work(Backup, SendOk), p3);
    CopySettles(p3);
    RunSnoc(p, [SendCopy(0), Work(Backup, Poll), Work(Backup, SendOk)], Settle(Backup));
    AlongQuiet(p, CopySteps(), ServesClean);
    AlongQuiet(p, CopySteps(), OwnPrefix);
  }

  lemma CopyHandedOver(p: Pipe, b: Batch)
    requires Up(p.j) && p.copies == [b] && p.backup.queue == []
    ensures Can(p, SendCopy(0))
    ensures Do(p, SendCopy(0))
         == p.(copies := [], backup := p.backup.(queue := [b], enqueued := p.backup.enqueued + multiset{b}))
  {
    hide Up;
    assert Drop([b], 0) == [] && [] + [b] == [b];
  }

  lemma CopySettles(p: Pipe)
    requires Up(p.j) && p.backup.worker.Storing? && !p.backup.hasJournal
    ensures Can(p, Settle(Backup)) && Do(p, Settle(Backup)) == p.(backup := p.backup.(worker := Resting))
  {
    hide Up;
  }

  // Both inserts are answered and taken by the server, nothing is pending and nothing is under way.
  ghost predicate AllDelivered(p: Pipe, reqs: set<nat>) {
    && p.answered == reqs && p.live.accepted == reqs && Log(p.j) == [] && p.j.pendingCount == 0
    && (forall b | b in UnderWay(p) :: b == []) && p.j.phase.Idle? && p.replies == {}
    && p.live.dir.pending == map[] && p.live.dir.failed == map[] && p.live.spoiled == {}
  }

  lemma PairDelivered(b0: Pipe, c: Config, prefix: string, a: Arrival, b: Arrival)
    requires FirstServer(b0, c, prefix) && b0.replies == {}
    ensures var p := Delivered(b0, a, b);
            && AllDelivered(p, {a.req, b.req}) && p.live.enqueued == multiset{Pair(a, b)}
            && p.copies == CopyTo(b0, Pair(a, b)) && p.backup == b0.backup && Up(p.j)
  {
    PairLog(b0.j.maxPending, a, b);
    assert Reqs(Pair(a, b)) == {a.req, b.req} by {
      ReqsOne(Item(1, a.req));
      ReqsAdd([Item(1, a.req)], Item(2, b.req));
      assert [Item(1, a.req)] + [Item(2, b.req)] == Pair(a, b);
    }
    hide Log, Reqs, CopyTo;
  }

  lemma PairLog(maxPending: int, a: Arrival, b: Arrival)
    ensures Log(TwoAcked(maxPending, a, b)) == []
  {
    var l, m := LineOf(1, a), LineOf(2, b);
    assert AckSet([1, 2]) == {1, 2} by {
      AckSetSnoc([], 1);
      AckSetSnoc([1], 2);
      assert [] + [1] == [1] && [1] + [2] == [1, 2] && AckSet([]) == {};
    }
    UnackedSnoc([], l, {1, 2});
    UnackedSnoc([l], m, {1, 2});
    assert [] + [l] == [l] && [l] + [m] == [l, m];
    assert Tokens(File([l, m], None)) == [l, m];
  }

  function TwoSteps(c: Config, prefix: string, backupPrefix: string, a: Arrival, b: Arrival): seq<Step> {
    BootSteps(prefix, backupPrefix) + PairSteps(a, b) + (if c.dual then CopySteps() else [])
  }

  /**
   The run for which all this is there: after a clean start two inserts for one table are answered, gathered in one
   batch, sent in their order and acknowledged, and with a backup configured that gets them too. At the end both servers
   have both, and the journal and the process have nothing left.
   */
  lemma TwoInsertsDelivered(c: Config, prefix: string, backupPrefix: string, a: Arrival, b: Arrival)
      returns (states: seq<Pipe>, steps: seq<Step>)
    requires IsPrefix(prefix) && IsPrefix(backupPrefix) && a.req != b.req && HasRoom(c, 2)
    requires SameTable(c.removeQueryID, a.ins, b.ins)
    ensures PipeCompacted(states, steps, c) && AllDelivered(states[|steps|], {a.req, b.req})
    ensures states[|steps|].live.enqueued == multiset{Pair(a, b)} && states[|steps|].copies == []
    ensures c.dual ==> states[|steps|].backup.accepted == {a.req, b.req}
  {
    hide Run, Along, PairSteps, BootSteps, CopySteps, Delivered, Settled, Booted, Unused, Untouched, PipeCompacted;
    hide AllDelivered, Copied, IsPrefix, SameTable, Reqs;
    var b0 := Booted(Untouched(c), prefix, backupPrefix);
    FirstBoot(c, prefix, backupPrefix);
    BootRuns(Untouched(c), prefix, backupPrefix);
    BootedParts(c, prefix, backupPrefix);
    PairRuns(b0, a, b);
    PairDelivered(b0, c, prefix, a, b);
    var p := Delivered(b0, a, b);
    var boot, pair := BootSteps(prefix, backupPrefix), PairSteps(a, b);
    RunThen(Untouched(c), boot, b0, pair, p);
    AlongThen(Untouched(c), boot, b0, pair, ServesClean);
    AlongThen(Untouched(c), boot, b0, pair, OwnPrefix);
    steps := TwoSteps(c, prefix, backupPrefix, a, b);
    if c.dual {
      CopyRuns(p, Pair(a, b));
      RunThen(Untouched(c), boot + pair, p, CopySteps(), Copied(p, Pair(a, b)));
      AlongThen(Untouched(c), boot + pair, p, CopySteps(), ServesClean);
      AlongThen(Untouched(c), boot + pair, p, CopySteps(), OwnPrefix);
      states := StatesOf(c, steps, Copied(p, Pair(a, b)));
      CopiedParts(p, a, b);
    } else {
      assert boot + pair + [] == boot + pair;
      states := StatesOf(c, steps, p);
    }
  }

  lemma BootedParts(c: Config, prefix: string, backupPrefix: string)
    requires IsPrefix(prefix)
    ensures var b0 := Booted(Untouched(c), prefix, backupPrefix);
            && FirstServer(b0, c, prefix) && Unused(b0)
            && b0.j == Server(b0.j.maxPending, 0) && b0.j.maxPending == c.maxPending
            && b0.book == map[] && b0.removeQueryID == c.removeQueryID && b0.live.hasJournal && b0.dual == c.dual
            && b0.replies == {} && b0.copies == []
            && b0.backup.queue == [] && b0.backup.worker.Resting? && !b0.backup.hasJournal && b0.backup.accepted == {}
  {
    FirstBoot(c, prefix, backupPrefix);
    hide BootSteps;
  }

  lemma CopiedParts(p: Pipe, a: Arrival, b: Arrival)
    requires AllDelivered(p, {a.req, b.req}) && p.backup.accepted == {}
    ensures var q := Copied(p, Pair(a, b));
            && AllDelivered(q, {a.req, b.req}) && q.live == p.live && q.copies == []
            && q.backup.accepted == {a.req, b.req}
  {
    ReqsOne(Item(1, a.req));
    ReqsAdd([Item(1, a.req)], Item(2, b.req));
    assert [Item(1, a.req)] + [Item(2, b.req)] == Pair(a, b);
    hide Reqs, Log;
    assert UnderWay(Copied(p, Pair(a, b))) == UnderWay(p);
  }

  // ---------------------------------------------------------------- a synchronous insert

  function SyncAccept(a: Arrival): seq<Step> {
    [Begin(a.req, a.size, a.ins), Inner(Write), AcceptSync]
  }

  function SyncSend(): seq<Step> {
    [SyncSent(0), SyncAckOk(0), Inner(AckNext)]
  }

  function SyncEnd(req: nat): seq<Step> {
    [Inner(AckEnd(false)), Reply(req)]
  }

  function SyncSteps(a: Arrival): seq<Step> {
    SyncAccept(a) + SyncSend() + SyncEnd(a.req)
  }

  function SyncAccepted(p: Pipe, a: Arrival): Pipe {
    p.(j := Appended(p.j.maxPending, 0, a.req, a.size), book := map[a.req := a.ins], syncs := [Item(1, a.req)])
  }

  // Taken by the server, with its acknowledgement written.
  function SyncTaken(p: Pipe, a: Arrival): Pipe {
    p.(j := Appended(p.j.maxPending, 0, a.req, a.size).(
              ack := [1], acked := {1}, pendingCount := 0, phase := Acking([], 1)),
       book := map[a.req := a.ins], replies := {a.req}, copies := CopyTo(p, [Item(1, a.req)]),
       live := p.live.(accepted := p.live.accepted + {a.req}, enqueued := p.live.enqueued + multiset{[Item(1, a.req)]}))
  }

  function SyncAnswered(p: Pipe, a: Arrival): Pipe {
    SyncTaken(p, a).(j := Acknowledged(p.j.maxPending, a.req, a.size), replies := {}, answered := p.answered + {a.req})
  }

  lemma SyncAcceptRuns(p: Pipe, a: Arrival)
    requires Unused(p) && p.j == Server(p.j.maxPending, 0) && p.book == map[] && p.syncs == []
    ensures Run(p, SyncAccept(a)) == Some(SyncAccepted(p, a))
  {
    hide Run, Can, Do;
    var line := LineOf(1, a);
    var p1 := p.(j := p.j.(nextID := 1, phase := Writing(line)), book := map[a.req := a.ins]);
    var p2 := p1.(j := p1.j.(wal := File([line], None), phase := Written(line)));
    AppendBegun(p, a.req, a.size, a.ins);
    LineWritten(p1, line);
    SyncReturned(p2, a);
    RunThree(p, Begin(a.req, a.size, a.ins), p1, Inner(Write), p2, AcceptSync, SyncAccepted(p, a));
  }

  lemma SyncSendRuns(p: Pipe, a: Arrival)
    requires p.replies == {} && p.doneOk == [] && p.syncs == []
    ensures Run(SyncAccepted(p, a), SyncSend()) == Some(SyncTaken(p, a))
  {
    hide Run, Can, Do;
    var x, p3 := Item(1, a.req), SyncAccepted(p, a);
    assert CopyTo(p3, [x]) == CopyTo(p, [x]);
    hide CopyTo;
    var p4 := p3.(syncs := [], doneOk := [x], copies := CopyTo(p, [x]),
                  live := p.live.(accepted := p.live.accepted + {a.req},
                                  enqueued := p.live.enqueued + multiset{[x]}));
    var p5 := p4.(doneOk := [], replies := {a.req}, j := p4.j.(phase := Acking([1], 0)));
    SyncSends(p3, x);
    SyncAcks(p4, x);
    OneAcked(p5, a.req, a.size);
    RunThree(p3, SyncSent(0), p4, SyncAckOk(0), p5, Inner(AckNext), SyncTaken(p, a));
  }

  lemma SyncEndRuns(p: Pipe, a: Arrival)
    requires p.replies == {} && p.doneOk == [] && p.syncs == []
    ensures Run(SyncTaken(p, a), SyncEnd(a.req)) == Some(SyncAnswered(p, a))
  {
    hide Run, Can, Do, CopyTo;
    var p6 := SyncTaken(p, a);
    var p7 := p6.(j := Acknowledged(p.j.maxPending, a.req, a.size));
    AckEnded(p6);
    Replied(p7, a.req);
    RunTwo(p6, Inner(AckEnd(false)), p7, Reply(a.req), SyncAnswered(p, a));
  }

  lemma SyncRuns(p: Pipe, a: Arrival)
    requires Unused(p) && p.j == Server(p.j.maxPending, 0) && p.book == map[] && p.syncs == [] && p.doneOk == []
    requires p.replies == {}
    ensures Run(p, SyncSteps(a)) == Some(SyncAnswered(p, a))
    ensures Along(p, SyncSteps(a), ServesClean) && Along(p, SyncSteps(a), OwnPrefix)
  {
    hide Run, Along, SyncAccepted, SyncTaken, SyncAnswered, SyncAccept, SyncSend, SyncEnd;
    SyncQuiet(p, a);
    SyncAcceptRuns(p, a);
    SyncSendRuns(p, a);
    SyncEndRuns(p, a);
    RunThen(p, SyncAccept(a), SyncAccepted(p, a), SyncSend(), SyncTaken(p, a));
    RunThen(p, SyncAccept(a) + SyncSend(), SyncTaken(p, a), SyncEnd(a.req), SyncAnswered(p, a));
  }

  lemma SyncQuiet(p: Pipe, a: Arrival)
    ensures Along(p, SyncSteps(a), ServesClean) && Along(p, SyncSteps(a), OwnPrefix)
  {
    hide Along;
    AlongQuiet(p, SyncSteps(a), ServesClean);
    AlongQuiet(p, SyncSteps(a), OwnPrefix);
  }

  lemma SyncReturned(p: Pipe, a: Arrival)
    requires p.syncs == []
    requires p.j == Appended(p.j.maxPending, 0, a.req, a.size).(pendingCount := 0, phase := Written(LineOf(1, a)))
    ensures Can(p, AcceptSync)
    ensures Do(p, AcceptSync) == p.(j := Appended(p.j.maxPending, 0, a.req, a.size), syncs := [Item(1, a.req)])
  {
    assert [] + [Item(1, a.req)] == [Item(1, a.req)];
  }

  lemma SyncSends(p: Pipe, x: Item)
    requires Up(p.j) && p.syncs == [x] && p.doneOk == []
    ensures Can(p, SyncSent(0))
    ensures Do(p, SyncSent(0))
         == p.(syncs := [], doneOk := [x], copies := CopyTo(p, [x]),
               live := p.live.(accepted := p.live.accepted + {x.req}, enqueued := p.live.enqueued + multiset{[x]}))
  {
    hide Up, CopyTo;
    ReqsOne(x);
    assert Drop([x], 0) == [] && [] + [x] == [x];
  }

  lemma SyncAcks(p: Pipe, x: Item)
    requires Up(p.j) && p.j.phase.Idle? && p.doneOk == [x] && p.replies == {}
    ensures Can(p, SyncAckOk(0))
    ensures Do(p, SyncAckOk(0)) == p.(doneOk := [], replies := {x.req}, j := p.j.(phase := Acking([x.id], 0)))
  {
    assert Drop([x], 0) == [] && {} + {x.req} == {x.req};
  }

  lemma Replied(p: Pipe, req: nat)
    requires Up(p.j) && p.replies == {req}
    ensures Can(p, Reply(req)) && Do(p, Reply(req)) == p.(replies := {}, answered := p.answered + {req})
  {
    hide Up;
    assert {req} - {req} == {};
  }

  /** So does a synchronous insert, which is answered when it is taken and acknowledged. */
  lemma SyncDelivered(c: Config, prefix: string, backupPrefix: string, a: Arrival)
      returns (states: seq<Pipe>, steps: seq<Step>)
    requires IsPrefix(prefix) && IsPrefix(backupPrefix)
    ensures PipeCompacted(states, steps, c) && AllDelivered(states[|steps|], {a.req})
    ensures c.dual ==> states[|steps|].copies == [[Item(1, a.req)]]
  {
    hide Run, Along, SyncSteps, BootSteps, Settled, Booted, Unused, Untouched, PipeCompacted, IsPrefix;
    var b0 := Booted(Untouched(c), prefix, backupPrefix);
    FirstBoot(c, prefix, backupPrefix);
    BootRuns(Untouched(c), prefix, backupPrefix);
    BootedParts(c, prefix, backupPrefix);
    SyncRuns(b0, a);
    var p := SyncAnswered(b0, a);
    var boot, sync := BootSteps(prefix, backupPrefix), SyncSteps(a);
    RunThen(Untouched(c), boot, b0, sync, p);
    AlongThen(Untouched(c), boot, b0, sync, ServesClean);
    AlongThen(Untouched(c), boot, b0, sync, OwnPrefix);
    steps := boot + sync;
    states := StatesOf(c, steps, p);
    SyncParts(b0, c, prefix, a);
  }

  lemma SyncParts(b0: Pipe, c: Config, prefix: string, a: Arrival)
    requires FirstServer(b0, c, prefix) && b0.replies == {} && b0.copies == [] && b0.dual == c.dual
    ensures AllDelivered(SyncAnswered(b0, a), {a.req})
    ensures c.dual ==> SyncAnswered(b0, a).copies == [[Item(1, a.req)]]
  {
    NothingPending(c.maxPending, a.req, a.size);
    hide Log;
    assert {} + {a.req} == {a.req} && [] + [[Item(1, a.req)]] == [[Item(1, a.req)]];
  }
}
