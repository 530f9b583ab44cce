/** Runs of the pipeline step by step: a start, an insert from its acceptance to its dump, an acknowledgement. */
module PipelineRuns {
  import opened Options
  import opened Wal
  import opened JournalMachine
  import opened JournalSafety
  import opened JournalCounts
  import opened Messages
  import opened Pipeline
  import opened PipelineSafety
  import JournalLimits
  import DumpName
  import D = DumpDirectory

  // An insert with its request number and the length of its line in the WAL.
  datatype Arrival = Arrival(req: nat, size: Positive, ins: Ins)

  // ---------------------------------------------------------------- running a list of steps

  function Next(before: Option<Pipe>, s: Step): Option<Pipe> {
    if before.Some? && Can(before.value, s) then Some(Do(before.value, s)) else None
  }

  function Run(p: Pipe, steps: seq<Step>): Option<Pipe> {
    if steps == [] then Some(p) else Next(Run(p, steps[..|steps| - 1]), steps[|steps| - 1])
  }

  lemma RunNone(p: Pipe)
    ensures Run(p, []) == Some(p)
  {
  }

  lemma RunSnoc(p: Pipe, steps: seq<Step>, s: Step)
    requires Run(p, steps).Some? && Can(Run(p, steps).value, s)
    ensures Run(p, steps + [s]) == Some(Do(Run(p, steps).value, s))
  {
    hide Can, Do;
    assert (steps + [s])[..|steps|] == steps;
  }

  // Two runs, one after the other.
  lemma RunThen(p: Pipe, a: seq<Step>, q: Pipe, b: seq<Step>, r: Pipe)
    requires Run(p, a) == Some(q) && Run(q, b) == Some(r)
    ensures Run(p, a + b) == Some(r)
  {
    hide Run;
    RunConcat(p, a, b);
  }

  lemma RunOne(p: Pipe, a: Step, p1: Pipe)
    requires Can(p, a) && Do(p, a) == p1
    ensures Run(p, [a]) == Some(p1)
  {
    hide Can, Do, Run;
    RunNone(p);
    RunSnoc(p, [], a);
    assert [] + [a] == [a];
  }

  lemma RunTwo(p: Pipe, a: Step, p1: Pipe, b: Step, p2: Pipe)
    requires Can(p, a) && Do(p, a) == p1 && Can(p1, b) && Do(p1, b) == p2
    ensures Run(p, [a, b]) == Some(p2)
  {
    hide Can, Do, Run;
    RunOne(p, a, p1);
    RunSnoc(p, [a], b);
    assert [a] + [b] == [a, b];
  }

  lemma RunThree(p: Pipe, a: Step, p1: Pipe, b: Step, p2: Pipe, c: Step, p3: Pipe)
    requires Can(p, a) && Do(p, a) == p1 && Can(p1, b) && Do(p1, b) == p2 && Can(p2, c) && Do(p2, c) == p3
    ensures Run(p, [a, b, c]) == Some(p3)
  {
    hide Can, Do, Run;
    RunTwo(p, a, p1, b, p2);
    RunSnoc(p, [a, b], c);
    assert [a, b] + [c] == [a, b, c];
  }

  lemma {:induction false} RunConcat(p: Pipe, a: seq<Step>, b: seq<Step>)
    requires Run(p, a).Some?
    ensures Run(p, a + b) == Run(Run(p, a).value, b)
  {
    hide Next;
    if b == [] {
      assert a + b == a;
    } else {
      RunConcat(p, a, b[..|b| - 1]);
      assert (a + b)[..|a + b| - 1] == a + b[..|b| - 1];
    }
  }

  lemma {:induction false} RunStates(p: Pipe, steps: seq<Step>) returns (states: seq<Pipe>)
    requires Run(p, steps).Some?
    ensures PipeRun(states, steps) && states[0] == p && states[|steps|] == Run(p, steps).value
    ensures forall i | 0 <= i <= |steps| :: Run(p, steps[..i]) == Some(states[i])
  {
    hide Can, Do, Run, PipeRun;
    if steps == [] {
      states := [p];
      NoSteps(p);
    } else {
      LastStep(p, steps);
      var before := RunStates(p, steps[..|steps| - 1]);
      LongerRun(p, steps, before);
      states := before + [Run(p, steps).value];
      forall i | 0 <= i <= |steps| ensures Run(p, steps[..i]) == Some(states[i]) {
        if i < |steps| {
          assert steps[..|steps| - 1][..i] == steps[..i];
        } else {
          assert steps[..i] == steps;
        }
      }
    }
  }

  lemma NoSteps(p: Pipe)
    ensures Run(p, []) == Some(p) && PipeRun([p], []) && forall steps: seq<Step> | steps == [] :: steps[..0] == []
  {
  }

  lemma LastStep(p: Pipe, steps: seq<Step>)
    requires steps != [] && Run(p, steps).Some?
    ensures var b, s := Run(p, steps[..|steps| - 1]), steps[|steps| - 1];
            b.Some? && Can(b.value, s) && Run(p, steps) == Some(Do(b.value, s))
  {
    hide Can, Do;
  }

  lemma LongerRun(p: Pipe, steps: seq<Step>, before: seq<Pipe>)
    requires steps != [] && Run(p, steps).Some? && PipeRun(before, steps[..|steps| - 1])
    requires before[0] == p && Some(before[|steps| - 1]) == Run(p, steps[..|steps| - 1])
    ensures PipeRun(before + [Run(p, steps).value], steps) && |before| == |steps|
  {
    hide Run, Can, Do;
    LastStep(p, steps);
  }

  function Inners(labels: seq<Label<nat>>): seq<Step> {
    seq(|labels|, i requires 0 <= i < |labels| => Inner(labels[i]))
  }

  // Steps inside the journal move only the journal.
  lemma {:induction false} InnerRuns(p: Pipe, labels: seq<Label<nat>>)
    requires Exec(p.j, labels).Some? && forall l | l in labels :: Private(l) && !l.CompactBegin?
    ensures Run(p, Inners(labels)) == Some(p.(j := Exec(p.j, labels).value))
  {
    hide Enabled, Apply;
    if labels == [] {
      assert Inners(labels) == [];
    } else {
      var k := |labels| - 1;
      InnerRuns(p, labels[..k]);
      assert Inners(labels)[..k] == Inners(labels[..k]);
    }
  }

  // ---------------------------------------------------------------- what holds along a run

  ghost predicate Along(p: Pipe, steps: seq<Step>, good: (Pipe, Step) -> bool) {
    forall i | 0 <= i < |steps| && Run(p, steps[..i]).Some? :: good(Run(p, steps[..i]).value, steps[i])
  }

  lemma AlongQuiet(p: Pipe, steps: seq<Step>, good: (Pipe, Step) -> bool)
    requires forall q, s | s in steps :: good(q, s)
    ensures Along(p, steps, good)
  {
    hide Run;
  }

  lemma AlongOne(p: Pipe, s: Step, good: (Pipe, Step) -> bool)
    requires good(p, s)
    ensures Along(p, [s], good)
  {
    hide Can, Do;
    assert [s][..0] == [];
  }

  lemma AlongThen(p: Pipe, a: seq<Step>, q: Pipe, b: seq<Step>, good: (Pipe, Step) -> bool)
    requires Run(p, a) == Some(q) && Along(p, a, good) && Along(q, b, good)
    ensures Along(p, a + b, good)
  {
    hide Run;
    forall i | 0 <= i < |a + b| && Run(p, (a + b)[..i]).Some?
      ensures good(Run(p, (a + b)[..i]).value, (a + b)[i])
    {
      if i < |a| {
        assert (a + b)[..i] == a[..i];
      } else {
        assert (a + b)[..i] == a + b[..i - |a|];
        RunConcat(p, a, b[..i - |a|]);
      }
    }
  }

  lemma AlongStates(p: Pipe, steps: seq<Step>, states: seq<Pipe>, good: (Pipe, Step) -> bool)
    requires Along(p, steps, good) && |states| == |steps| + 1
    requires forall i | 0 <= i <= |steps| :: Run(p, steps[..i]) == Some(states[i])
    ensures forall i | 0 <= i < |steps| :: good(states[i], steps[i])
  {
    hide Run;
    forall i | 0 <= i < |steps| ensures good(states[i], steps[i]) {
      assert Run(p, steps[..i]) == Some(states[i]);
    }
  }

  // ---------------------------------------------------------------- a process that serves

  // The pipeline of a configuration before its first process.
  function Untouched(c: Config): Pipe {
    Init(c.maxPending, c.dual, c.removeQueryID)
  }

  // A server with an empty WAL that has given out ids up to this one.
  function Server(maxPending: int, last: nat): St<nat> {
    St(File([], None), [], maxPending, {}, last, 0, 0, Ready, Idle, Serving, true, 0)
  }

  // The process that starts on the files of this pipeline.
  function Booted(p: Pipe, prefix: string, backupPrefix: string): Pipe {
    p.(j := JournalLimits.Started(p.j), live := WithPrefix(p.live, prefix),
       backup := if p.dual then WithPrefix(p.backup, backupPrefix) else p.backup)
  }

  predicate IsPrefix(prefix: string) {
    |prefix| == 14 && DumpName.AllDigits(prefix) && prefix != NO_PREFIX
  }

  function FirstSteps(prefix: string, backupPrefix: string): seq<Step> {
    [Start(prefix, backupPrefix), Step.Replayed, Inner(CompactBegin)]
  }

  function BootSteps(prefix: string, backupPrefix: string): seq<Step> {
    FirstSteps(prefix, backupPrefix) + Inners(CompactSteps()) + [Inner(Serve)]
  }

  // A process that is not running, with nothing pending in its files.
  ghost predicate Settled(p: Pipe) {
    && p.j == NewProcess(p.j.wal, p.j.ack, p.j.maxPending) && Fits(Tokens(p.j.wal), SCAN_LIMIT) && Log(p.j) == []
    && p.pushes == []
  }

  // The pipeline when the start-up has replayed, and its compaction begins.
  function Opening(p: Pipe, prefix: string, backupPrefix: string): Pipe
    requires Enabled(p.j, Open)
  {
    Booted(p, prefix, backupPrefix).(j := JournalLimits.OpenedAndReplayed(p.j))
  }

  lemma BootRuns(p: Pipe, prefix: string, backupPrefix: string)
    requires Settled(p) && IsPrefix(prefix) && IsPrefix(backupPrefix)
    ensures Run(p, BootSteps(prefix, backupPrefix)) == Some(Booted(p, prefix, backupPrefix))
    ensures Along(p, BootSteps(prefix, backupPrefix), ServesClean)
    ensures OwnPrefix(p, Start(prefix, backupPrefix)) ==> Along(p, BootSteps(prefix, backupPrefix), OwnPrefix)
  {
    hide Run, Along, Booted, WithPrefix, IsPrefix, JournalLimits.Started, CompactAt;
    var first, compact := FirstSteps(prefix, backupPrefix), Inners(CompactSteps());
    var p3 := Opening(p, prefix, backupPrefix);
    var p4 := p3.(j := CompactAt(p3.j, 8));
    JournalLimits.StartedShape(p.j);
    FirstStepsRun(p, prefix, backupPrefix);
    CompactionRuns(p3.j);
    CompactStepsInside();
    InnerRuns(p3, CompactSteps());
    RunThen(p, first, p3, compact, p4);
    ServeRuns(p4, JournalLimits.Started(p.j));
    assert Booted(p, prefix, backupPrefix) == p4.(j := JournalLimits.Started(p.j)) by {
      assert p3 == Booted(p, prefix, backupPrefix).(j := p3.j);
      BootedJournal(p, prefix, backupPrefix);
    }
    RunThen(p, first + compact, p4, [Inner(Serve)], Booted(p, prefix, backupPrefix));
    CleanAtEight(p3.j);
    AlongBoot(p, prefix, backupPrefix, p3, p4);
  }

  lemma BootedJournal(p: Pipe, prefix: string, backupPrefix: string)
    ensures Booted(p, prefix, backupPrefix).j == JournalLimits.Started(p.j)
  {
    hide JournalLimits.Started;
  }

  lemma CleanAtEight(j: St<nat>)
    ensures CompactAt(j, 8).clean
  {
  }

  lemma CompactStepsInside()
    ensures forall l | l in CompactSteps<nat>() :: Private(l) && !l.CompactBegin? && !l.Serve?
    ensures forall s | s in Inners(CompactSteps()) :: s.Inner? && !s.l.Serve?
  {
  }

  lemma ServeRuns(p: Pipe, j: St<nat>)
    requires p.j.stage.Replayed? && p.j.phase.Idle? && p.j.(stage := Serving) == j
    ensures Run(p, [Inner(Serve)]) == Some(p.(j := j))
  {
    hide Run;
    RunOne(p, Inner(Serve), p.(j := j));
  }

  lemma AlongBoot(p: Pipe, prefix: string, backupPrefix: string, p3: Pipe, p4: Pipe)
    requires Run(p, FirstSteps(prefix, backupPrefix)) == Some(p3)
    requires Run(p3, Inners(CompactSteps())) == Some(p4) && p4.j.clean
    ensures Along(p, BootSteps(prefix, backupPrefix), ServesClean)
    ensures OwnPrefix(p, Start(prefix, backupPrefix)) ==> Along(p, BootSteps(prefix, backupPrefix), OwnPrefix)
  {
    hide Run, Along, CompactSteps, Inners;
    var first, compact := FirstSteps(prefix, backupPrefix), Inners(CompactSteps());
    CompactStepsInside();
    RunThen(p, first, p3, compact, p4);
    AlongQuiet(p, first, ServesClean);
    AlongQuiet(p3, compact, ServesClean);
    AlongThen(p, first, p3, compact, ServesClean);
    AlongOne(p4, Inner(Serve), ServesClean);
    AlongThen(p, first + compact, p4, [Inner(Serve)], ServesClean);
    if OwnPrefix(p, Start(prefix, backupPrefix)) {
      AlongFirst(p, prefix, backupPrefix);
      AlongQuiet(p3, compact, OwnPrefix);
      AlongThen(p, first, p3, compact, OwnPrefix);
      AlongOne(p4, Inner(Serve), OwnPrefix);
      AlongThen(p, first + compact, p4, [Inner(Serve)], OwnPrefix);
    }
  }

  lemma AlongFirst(p: Pipe, prefix: string, backupPrefix: string)
    requires OwnPrefix(p, Start(prefix, backupPrefix))
    ensures Along(p, FirstSteps(prefix, backupPrefix), OwnPrefix)
  {
    hide Can, Do, Next;
    var first := FirstSteps(prefix, backupPrefix);
    assert first[..0] == [];
    assert Run(p, []) == Some(p);
    hide Run;
    forall i | 0 <= i < |first| && Run(p, first[..i]).Some? ensures OwnPrefix(Run(p, first[..i]).value, first[i]) {
      if i == 0 {
        assert Run(p, first[..i]).value == p;
      }
    }
  }

  lemma FirstStepsRun(p: Pipe, prefix: string, backupPrefix: string)
    requires Settled(p) && IsPrefix(prefix) && IsPrefix(backupPrefix)
    ensures Run(p, FirstSteps(prefix, backupPrefix)) == Some(Opening(p, prefix, backupPrefix))
  {
    hide Run, Can, Do, Settled, IsPrefix;
    OpenEnabled(p);
    var p1 := Opening(p, prefix, backupPrefix).(j := Apply(p.j, Open));
    var p2 := p1.(j := p1.j.(stage := Stage.Replayed));
    StartStep(p, prefix, backupPrefix);
    ReplayStep(p, p1);
    hide Enabled, Apply;
    RunThree(p, Start(prefix, backupPrefix), p1, Step.Replayed, p2, Inner(CompactBegin),
             Opening(p, prefix, backupPrefix));
  }

  lemma OpenEnabled(p: Pipe)
    requires Settled(p)
    ensures Enabled(p.j, Open) && p.pushes == []
  {
    hide Log, Tokens;
  }

  lemma StartStep(p: Pipe, prefix: string, backupPrefix: string)
    requires Enabled(p.j, Open) && IsPrefix(prefix) && IsPrefix(backupPrefix)
    ensures Can(p, Start(prefix, backupPrefix))
    ensures Do(p, Start(prefix, backupPrefix)) == Opening(p, prefix, backupPrefix).(j := Apply(p.j, Open))
  {
    hide Enabled, Apply, WithPrefix, JournalLimits.Started, JournalLimits.OpenedAndReplayed;
  }

  lemma ReplayStep(p: Pipe, p1: Pipe)
    requires Settled(p) && Enabled(p.j, Open) && p1.j == Apply(p.j, Open) && p1.pushes == []
    ensures var p2 := p1.(j := p1.j.(stage := Stage.Replayed));
            && Can(p1, Step.Replayed) && Do(p1, Step.Replayed) == p2
            && Can(p2, Inner(CompactBegin))
            && Do(p2, Inner(CompactBegin)) == p2.(j := p2.j.(phase := Starting))
  {
    hide Unacked, Tokens, AckSet, MaxId;
    assert ReplayedRecords(p1.j) == [];
    assert [] + ToItems([]) == [];
  }

  // The start-up on empty files, and on one record that has been acknowledged.
  lemma StartedEmpty(maxPending: int)
    ensures var s: St<nat> := NewProcess(File([], None), [], maxPending);
            JournalLimits.Started(s) == Server(maxPending, 0) && Log(s) == [] && Tokens(s.wal) == []
  {
  }

  lemma StartedOnOne(maxPending: int, req: nat, size: Positive)
    ensures var line := Line(Some(Record(1, req)), size);
            var s := NewProcess(File([line], None), [1], maxPending);
            JournalLimits.Started(s) == Server(maxPending, 1) && Log(s) == [] && Tokens(s.wal) == [line]
  {
    var line := Line(Some(Record(1, req)), size);
    OneAcknowledged(line, 1);
    assert Tokens(File([line], None)) == [line];
    hide Unacked, Keep, MaxId, AckSet, Tokens;
    OneMaxId(line, 0);
    NoMaxId(1);
  }

  lemma OneAcknowledged(line: Line<nat>, id: nat)
    requires line.parsed.Some? && line.parsed.value.id == id
    ensures AckSet([id]) == {id} && Unacked([line], {id}) == [] && Keep([line], {id}) == []
  {
    assert AckSet([id]) == {id} by {
      AckSetSnoc([], id);
      assert [] + [id] == [id] && AckSet([]) == {};
    }
    UnackedSnoc([], line, {id});
    assert [] + [line] == [line];
  }

  lemma OneMaxId(line: Line<nat>, floor: nat)
    requires line.parsed.Some? && line.parsed.value.id > floor
    ensures MaxId([line], floor) == line.parsed.value.id
  {
    assert [line][..0] == [];
  }

  lemma NoMaxId(floor: nat)
    ensures MaxId<nat>([], floor) == floor
  {
  }

  // ---------------------------------------------------------------- an insert from its acceptance to its dump

  // The journal after one append, and after its acknowledgement.
  function Appended(maxPending: int, last: nat, req: nat, size: Positive): St<nat> {
    Server(maxPending, last + 1).(wal := File([Line(Some(Record(last + 1, req)), size)], None), pendingCount := 1)
  }

  function Acknowledged(maxPending: int, req: nat, size: Positive): St<nat> {
    Appended(maxPending, 0, req, size).(ack := [1], acked := {1}, pendingCount := 0, acksSince := 1)
  }

  function AcceptSteps(req: nat, size: Positive, ins: Ins): seq<Step> {
    [Begin(req, size, ins), Inner(Write), AcceptAsync]
  }

  function AcceptedPipe(p: Pipe, req: nat, size: Positive, ins: Ins): Pipe {
    p.(j := Appended(p.j.maxPending, p.j.nextID, req, size), book := p.book[req := ins],
       pushes := [Item(p.j.nextID + 1, req)], answered := p.answered + {req})
  }

  // A server with an empty WAL, and nothing of the live side under way.
  predicate Unused(p: Pipe) {
    && p.j == Server(p.j.maxPending, p.j.nextID)
    && p.pushes == [] && p.tables == [] && p.unsent == [] && p.live.queue == [] && p.live.worker.Resting?
  }

  lemma AcceptRuns(p: Pipe, req: nat, size: Positive, ins: Ins)
    requires Unused(p) && req !in p.book
    ensures Run(p, AcceptSteps(req, size, ins)) == Some(AcceptedPipe(p, req, size, ins))
  {
    hide Run, Can, Do;
    var id := p.j.nextID + 1;
    var line := Line(Some(Record(id, req)), size);
    var p1 := p.(j := p.j.(nextID := id, phase := Writing(line)), book := p.book[req := ins]);
    var p2 := p1.(j := p1.j.(wal := File([line], None), phase := Written(line)));
    AppendBegun(p, req, size, ins);
    LineWritten(p1, line);
    AppendReturned(p2, line);
    RunThree(p, Begin(req, size, ins), p1, Inner(Write), p2, AcceptAsync, AcceptedPipe(p, req, size, ins));
  }

  lemma AppendBegun(p: Pipe, req: nat, size: Positive, ins: Ins)
    requires Unused(p) && req !in p.book
    ensures Can(p, Begin(req, size, ins))
    ensures var id := p.j.nextID + 1;
            Do(p, Begin(req, size, ins))
            == p.(j := p.j.(nextID := id, phase := Writing(Line(Some(Record(id, req)), size))),
                  book := p.book[req := ins])
  {
  }

  lemma AppendReturned(p: Pipe, line: Filled<nat>)
    requires p.pushes == [] && p.j.phase == Written(line) && line.parsed.Some? && p.j.pendingCount == 0 && Up(p.j)
    ensures Can(p, AcceptAsync)
    ensures Do(p, AcceptAsync)
         == p.(j := p.j.(phase := Idle, pendingCount := 1), pushes := [ToItem(line.parsed.value)],
               answered := p.answered + {line.parsed.value.payload})
  {
    assert [] + [ToItem(line.parsed.value)] == [ToItem(line.parsed.value)];
  }

  lemma LineWritten(p: Pipe, line: Filled<nat>)
    requires p.j.wal == File([], None) && p.j.phase == Writing(line) && p.j.writer.Ready?
    ensures Can(p, Inner(Write))
    ensures Do(p, Inner(Write)) == p.(j := p.j.(wal := File([line], None), phase := Written(line)))
  {
    assert [] + [line] == [line];
  }

  function PushSteps(ins: Ins): seq<Step> {
    if ins.verbatim then [PushOpaque(0)] else [PushNew(0), Flush(0)]
  }

  function PushedPipe(p: Pipe, ins: Ins, x: Item): Pipe {
    p.(pushes := [], tables := if ins.verbatim then [] else [[]], unsent := [[x]])
  }

  lemma PushRuns(p: Pipe, ins: Ins, x: Item)
    requires Up(p.j) && p.pushes == [x] && p.tables == [] && p.unsent == [] && Book(p.book, x.req) == ins
    ensures Run(p, PushSteps(ins)) == Some(PushedPipe(p, ins, x))
  {
    hide Run, Up, Can, Do;
    if ins.verbatim {
      OpaquePushed(p, ins, x);
      RunOne(p, PushOpaque(0), PushedPipe(p, ins, x));
    } else {
      NewPushed(p, ins, x);
      RunTwo(p, PushNew(0), p.(pushes := [], tables := [[x]]), Flush(0), PushedPipe(p, ins, x));
    }
  }

  lemma OpaquePushed(p: Pipe, ins: Ins, x: Item)
    requires Up(p.j) && p.pushes == [x] && p.tables == [] && p.unsent == [] && Book(p.book, x.req) == ins
    requires ins.verbatim
    ensures Can(p, PushOpaque(0)) && Do(p, PushOpaque(0)) == PushedPipe(p, ins, x)
  {
    hide Up;
    assert Drop([x], 0) == [] && [] + [[x]] == [[x]];
  }

  lemma NewPushed(p: Pipe, ins: Ins, x: Item)
    requires Up(p.j) && p.pushes == [x] && p.tables == [] && p.unsent == [] && Book(p.book, x.req) == ins
    requires !ins.verbatim
    ensures var q := p.(pushes := [], tables := [[x]]);
            && Can(p, PushNew(0)) && Do(p, PushNew(0)) == q
            && Can(q, Flush(0)) && Do(q, Flush(0)) == PushedPipe(p, ins, x)
  {
    hide Up;
    assert Drop([x], 0) == [] && [] + [[x]] == [[x]] && [[x]][0 := []] == [[]];
  }

  // Without a response no server could be reached; a server that gives one refuses the request.
  function StatusFor(response: string): nat {
    if response == "" then 503 else 400
  }

  function DumpSteps(response: string): seq<Step> {
    [Send(0), Work(Live, Poll), Work(Live, SendFail(StatusFor(response), false, response)), Work(Live, DumpOk)]
  }

  function DumpedPipe(p: Pipe, x: Item, response: string): Pipe {
    var m := BatchMessage(p.removeQueryID, Inserts(p.book, [x]));
    var live := DumpedWhole(p.live, [x], m, StatusFor(response), response);
    p.(unsent := [], copies := CopyTo(p, [x]),
       live := live.(queue := [], worker := Storing([x]), enqueued := p.live.enqueued + multiset{[x]}))
  }

  lemma DumpRuns(p: Pipe, x: Item, response: string)
    requires Up(p.j) && p.unsent == [[x]] && p.live.queue == [] && p.live.worker.Resting?
    ensures Run(p, DumpSteps(response)) == Some(DumpedPipe(p, x, response))
  {
    hide Run, BatchMessage, DumpedWhole, Up, Inserts, Reqs;
    assert Drop([[x]], 0) == [] && [] + [[x]] == [[x]] && [[x]][1..] == [];
    var l1 := p.live.(queue := [[x]], enqueued := p.live.enqueued + multiset{[x]});
    var p1 := p.(unsent := [], copies := CopyTo(p, [x]), live := l1);
    var p2 := p1.(live := l1.(queue := [], worker := Sending([x])));
    var p3 := p1.(live := l1.(queue := [], worker := Dumping([x], StatusFor(response), response)));
    SendRuns(p, x, response);
    LastDump(p, p3, x, response);
    hide Can, Do, CopyTo;
    var fails := Work(Live, SendFail(StatusFor(response), false, response));
    RunThree(p, Send(0), p1, Work(Live, Poll), p2, fails, p3);
    RunSnoc(p, [Send(0), Work(Live, Poll), fails], Work(Live, DumpOk));
    assert [Send(0), Work(Live, Poll), fails] + [Work(Live, DumpOk)] == DumpSteps(response);
  }

  lemma SendRuns(p: Pipe, x: Item, response: string)
    requires Up(p.j) && p.unsent == [[x]] && p.live.queue == [] && p.live.worker.Resting?
    ensures var l1 := p.live.(queue := [[x]], enqueued := p.live.enqueued + multiset{[x]});
            var p1 := p.(unsent := [], copies := CopyTo(p, [x]), live := l1);
            var p2 := p1.(live := l1.(queue := [], worker := Sending([x])));
            var p3 := p1.(live := l1.(queue := [], worker := Dumping([x], StatusFor(response), response)));
            && Can(p, Send(0)) && Do(p, Send(0)) == p1
            && Can(p1, Work(Live, Poll)) && Do(p1, Work(Live, Poll)) == p2
            && Can(p2, Work(Live, SendFail(StatusFor(response), false, response)))
            && Do(p2, Work(Live, SendFail(StatusFor(response), false, response))) == p3
  {
    assert Drop([[x]], 0) == [] && [] + [[x]] == [[x]];
    SentRuns(p, x);
    var l1 := p.live.(queue := [[x]], enqueued := p.live.enqueued + multiset{[x]});
    PolledRuns(p.(unsent := [], copies := CopyTo(p, [x]), live := l1), x, response);
    hide Can, Do, CopyTo;
  }

  lemma SentRuns(p: Pipe, x: Item)
    requires Up(p.j) && p.unsent == [[x]] && p.live.queue == []
    ensures Can(p, Send(0))
    ensures Do(p, Send(0))
         == p.(unsent := [], copies := CopyTo(p, [x]),
               live := p.live.(queue := [[x]], enqueued := p.live.enqueued + multiset{[x]}))
  {
    hide Up, CopyTo;
    assert Drop([[x]], 0) == [] && [] + [[x]] == [[x]];
  }

  lemma PolledRuns(p: Pipe, x: Item, response: string)
    requires Up(p.j) && p.live.queue == [[x]] && p.live.worker.Resting?
    ensures var p2 := p.(live := p.live.(queue := [], worker := Sending([x])));
            && Can(p, Work(Live, Poll)) && Do(p, Work(Live, Poll)) == p2
            && Can(p2, Work(Live, SendFail(StatusFor(response), false, response)))
            && Do(p2, Work(Live, SendFail(StatusFor(response), false, response)))
               == p.(live := p.live.(queue := [], worker := Dumping([x], StatusFor(response), response)))
  {
    hide BatchMessage, DumpedWhole, Up, Inserts, Reqs;
    assert [[x]][1..] == [];
  }

  lemma LastDump(p: Pipe, q: Pipe, x: Item, response: string)
    requires Up(p.j)
    requires q == p.(unsent := [], copies := CopyTo(p, [x]),
                     live := p.live.(queue := [], worker := Dumping([x], StatusFor(response), response),
                                     enqueued := p.live.enqueued + multiset{[x]}))
    ensures Can(q, Work(Live, DumpOk)) && Do(q, Work(Live, DumpOk)) == DumpedPipe(p, x, response)
  {
    hide BatchMessage, ReadsBack, DumpText, DumpName.FileName, D.Apply, Up, Reqs, CopyTo, Inserts;
  }

  // From its acceptance to its dump.
  function DeliverSteps(req: nat, size: Positive, ins: Ins, response: string): seq<Step> {
    AcceptSteps(req, size, ins) + PushSteps(ins) + DumpSteps(response)
  }

  function DeliveredPipe(p: Pipe, req: nat, size: Positive, ins: Ins, response: string): Pipe {
    var x := Item(p.j.nextID + 1, req);
    DumpedPipe(PushedPipe(AcceptedPipe(p, req, size, ins), ins, x), x, response)
  }

  lemma DeliverRuns(p: Pipe, req: nat, size: Positive, ins: Ins, response: string)
    requires Unused(p) && req !in p.book
    ensures Run(p, DeliverSteps(req, size, ins, response)) == Some(DeliveredPipe(p, req, size, ins, response))
    ensures Along(p, DeliverSteps(req, size, ins, response), ServesClean)
    ensures Along(p, DeliverSteps(req, size, ins, response), OwnPrefix)
  {
    hide Run, Along, DumpedPipe, AcceptSteps, PushSteps, DumpSteps;
    var x := Item(p.j.nextID + 1, req);
    AcceptRuns(p, req, size, ins);
    var p1 := AcceptedPipe(p, req, size, ins);
    PushRuns(p1, ins, x);
    var p2 := PushedPipe(p1, ins, x);
    RunThen(p, AcceptSteps(req, size, ins), p1, PushSteps(ins), p2);
    DumpRuns(p2, x, response);
    RunThen(p, AcceptSteps(req, size, ins) + PushSteps(ins), p2, DumpSteps(response), DumpedPipe(p2, x, response));
    DeliverQuiet(req, size, ins, response);
    AlongQuiet(p, DeliverSteps(req, size, ins, response), ServesClean);
    AlongQuiet(p, DeliverSteps(req, size, ins, response), OwnPrefix);
  }

  lemma DeliverQuiet(req: nat, size: Positive, ins: Ins, response: string)
    ensures forall q, s | s in DeliverSteps(req, size, ins, response) :: ServesClean(q, s)
    ensures forall q, s | s in DeliverSteps(req, size, ins, response) :: OwnPrefix(q, s)
  {
  }

  // What the dump leaves: one more file, of that name and with that text, in the place of one of its name.
  lemma DeliveredParts(p: Pipe, req: nat, size: Positive, ins: Ins, response: string)
    ensures var q := DeliveredPipe(p, req, size, ins, response);
            var m := BatchMessage(p.removeQueryID, [ins]);
            var x := Item(p.j.nextID + 1, req);
            var live := DumpedWhole(p.live, [x], m, StatusFor(response), response);
            && q.j == Appended(p.j.maxPending, p.j.nextID, req, size)
            && q.book == p.book[req := ins] && q.answered == p.answered + {req}
            && q.pushes == [] && q.unsent == [] && (forall t | t in q.tables :: t == [])
            && q.retired == p.retired && q.syncs == p.syncs && q.doneOk == p.doneOk && q.doneBad == p.doneBad
            && q.dual == p.dual && q.removeQueryID == p.removeQueryID
            && q.live == live.(queue := [], worker := Storing([x]), enqueued := p.live.enqueued + multiset{[x]})
  {
    hide BatchMessage, DumpedWhole;
    assert Inserts(p.book[req := ins], [Item(p.j.nextID + 1, req)]) == [ins];
  }

  function AckSteps(): seq<Step> {
    [Settle(Live), Inner(AckNext), Inner(AckEnd(false))]
  }

  function AckedPipe(p: Pipe, req: nat, size: Positive): Pipe {
    p.(j := Acknowledged(p.j.maxPending, req, size), live := p.live.(worker := Resting))
  }

  lemma AckRuns(p: Pipe, x: Item, req: nat, size: Positive)
    requires p.j == Appended(p.j.maxPending, 0, req, size)
    requires p.live.worker == Storing([x]) && x.id == 1 && p.live.hasJournal
    ensures Run(p, AckSteps()) == Some(AckedPipe(p, req, size))
  {
    hide Run;
    assert IdsOf([x]) == [1] && [1][1..] == [] && [] + [1] == [1] && {} + {1} == {1};
    var p1 := p.(j := p.j.(phase := Acking([1], 0)), live := p.live.(worker := Resting));
    var p2 := p1.(j := p.j.(ack := [1], acked := {1}, pendingCount := 0, phase := Acking([], 1)));
    assert Can(p, Settle(Live)) && Do(p, Settle(Live)) == p1;
    OneAcked(p1, req, size);
    hide Appended, Acknowledged, Can, Do, IdsOf;
    RunThree(p, Settle(Live), p1, Inner(AckNext), p2, Inner(AckEnd(false)), AckedPipe(p, req, size));
  }

  lemma OneAcked(p: Pipe, req: nat, size: Positive)
    requires p.j == Appended(p.j.maxPending, 0, req, size).(phase := Acking([1], 0))
    ensures var q := p.(j := p.j.(ack := [1], acked := {1}, pendingCount := 0, phase := Acking([], 1)));
            && Can(p, Inner(AckNext)) && Do(p, Inner(AckNext)) == q
            && Can(q, Inner(AckEnd(false)))
            && Do(q, Inner(AckEnd(false))) == p.(j := Acknowledged(p.j.maxPending, req, size))
  {
    AckWritten(p);
    AckEnded(p.(j := p.j.(ack := [1], acked := {1}, pendingCount := 0, phase := Acking([], 1))));
    hide Can, Do;
  }

  lemma AckWritten(p: Pipe)
    requires p.j.phase == Acking([1], 0) && p.j.ack == [] && p.j.acked == {} && p.j.pendingCount == 1
    ensures Can(p, Inner(AckNext))
    ensures Do(p, Inner(AckNext))
         == p.(j := p.j.(ack := [1], acked := {1}, pendingCount := 0, phase := Acking([], 1)))
  {
    assert [1][1..] == [] && [] + [1] == [1] && {} + {1} == {1};
  }

  lemma AckEnded(p: Pipe)
    requires p.j.phase == Acking([], 1) && p.j.acksSince == 0
    ensures Can(p, Inner(AckEnd(false)))
    ensures Do(p, Inner(AckEnd(false))) == p.(j := p.j.(acksSince := 1, phase := Idle))
  {
  }

  lemma AckQuiet(p: Pipe)
    ensures Along(p, AckSteps(), ServesClean) && Along(p, AckSteps(), OwnPrefix)
  {
    hide Along;
    AlongQuiet(p, AckSteps(), ServesClean);
    AlongQuiet(p, AckSteps(), OwnPrefix);
  }

  // The states of such a run.
  lemma StatesOf(c: Config, steps: seq<Step>, p: Pipe) returns (states: seq<Pipe>)
    requires Run(Untouched(c), steps) == Some(p) && Along(Untouched(c), steps, ServesClean)
    ensures PipeFromEmpty(states, steps, c) && states[|steps|] == p
    ensures forall i | 0 <= i < |steps| :: ServesClean(states[i], steps[i])
    ensures Along(Untouched(c), steps, OwnPrefix) ==> PipeCompacted(states, steps, c)
  {
    hide Run, Along, PipeRun, ServesClean, OwnPrefix;
    states := RunStates(Untouched(c), steps);
    assert |states| == |steps| + 1 by {
      StatesLength(states, steps);
    }
    AlongStates(Untouched(c), steps, states, ServesClean);
    if Along(Untouched(c), steps, OwnPrefix) {
      AlongStates(Untouched(c), steps, states, OwnPrefix);
    }
  }

  lemma StatesLength(states: seq<Pipe>, steps: seq<Step>)
    requires PipeRun(states, steps)
    ensures |states| == |steps| + 1
  {
    hide Can, Do;
  }
}
