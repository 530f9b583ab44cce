/** Start-up as a whole, and concrete runs on which a stronger promise of the journal would be false. */
module JournalLimits {
  import opened Options
  import opened Wal
  import opened JournalMachine
  import opened JournalSafety
  import opened JournalCounts

  function StartSteps<P>(): seq<Label<P>> {
    OpenSteps() + CompactSteps() + [Serve]
  }

  // The process that a clean start-up leaves on these files.
  function Started<P>(s: St<P>): St<P> {
    var kept := Keep(Tokens(s.wal), AckSet(s.ack));
    St(File(kept, None), [], s.maxPending, {}, MaxId(kept, MaxId(Tokens(s.wal), 0)), |kept|, 0, Ready, Idle, Serving,
       true, 0)
  }

  lemma KeepFits<P>(ts: seq<Line<P>>, acked: set<nat>, limit: nat)
    requires Fits(ts, limit)
    ensures Fits(Keep(ts, acked), limit)
  {
    var kept := Keep(ts, acked);
    forall i | 0 <= i < |kept| ensures kept[i].size < limit {
      assert kept[i] in ts;
    }
  }

  function OpenSteps<P>(): seq<Label<P>> {
    [Open, Replay, CompactBegin]
  }

  function OpenedAndReplayed<P>(s: St<P>): St<P>
    requires Enabled(s, Open)
  {
    Apply(s, Open).(stage := Replayed, phase := Starting)
  }

  lemma OpenRuns<P>(s: St<P>)
    requires s.phase.Idle? && Enabled(s, Open)
    ensures Exec(s, OpenSteps()) == Some(OpenedAndReplayed(s))
  {
    var all: seq<Label<P>> := OpenSteps();
    var s1 := Apply(s, Open);
    ExecNext(s, all, 0, s);
    ExecNext(s, all, 1, s1);
    ExecNext(s, all, 2, s1.(stage := Replayed));
    assert all[..3] == all;
  }

  /**
   Start-up: on files whose lines fit the scanner, NewJournal, ReplayUnacked and Compact lead to a serving process whose
   WAL is the pending lines and nothing else, whose acknowledgement file is empty, and whose pending records are those
   the files told.
   */
  lemma StartRuns<P>(s: St<P>)
    requires s == NewProcess(s.wal, s.ack, s.maxPending) && Fits(Tokens(s.wal), SCAN_LIMIT)
    ensures Exec(s, StartSteps()) == Some(Started(s))
    ensures Log(Started(s)) == Log(s) && |Started(s).wal.lines| == |Log(s)|
  {
    hide Exec, CompactAt, CompactAllowed, Apply, Keep, Unacked, Fits, OpenSteps, CompactSteps, Started;
    StartKeepsLog(s.wal, s.ack);
    OpenRuns(s);
    StartedShape(s);
    var s3 := OpenedAndReplayed(s);
    CompactionRuns(s3);
    ExecConcat(s, OpenSteps(), CompactSteps());
    ServeRuns(s, OpenSteps() + CompactSteps(), CompactAt(s3, 8));
  }

  lemma StartedShape<P>(s: St<P>)
    requires s == NewProcess(s.wal, s.ack, s.maxPending) && Fits(Tokens(s.wal), SCAN_LIMIT)
    ensures CompactAllowed(OpenedAndReplayed(s), 8)
    ensures var t := CompactAt(OpenedAndReplayed(s), 8);
            t.stage.Replayed? && t.phase.Idle? && t.(stage := Serving) == Started(s)
    ensures Log(Started(s)) == Unacked(Tokens(File(Keep(Tokens(s.wal), AckSet(s.ack)), None)), AckSet([]))
    ensures |Started(s).wal.lines| == |Keep(Tokens(s.wal), AckSet(s.ack))|
  {
    hide Keep, Tokens, Unacked, AckSet, MaxId;
    KeepFits(Tokens(s.wal), AckSet(s.ack), SCAN_LIMIT);
  }

  lemma ServeRuns<P>(s: St<P>, before: seq<Label<P>>, t: St<P>)
    requires Exec(s, before) == Some(t) && Enabled(t, Serve)
    ensures Exec(s, before + [Serve]) == Some(t.(stage := Serving))
  {
    assert (before + [Serve])[..|before|] == before;
  }

  lemma StartKeepsLog<P>(wal: File<P>, ack: seq<nat>)
    ensures Unacked(Keep(Tokens(wal), AckSet(ack)), AckSet([])) == Unacked(Tokens(wal), AckSet(ack))
    ensures |Unacked(Tokens(wal), AckSet(ack))| == |Keep(Tokens(wal), AckSet(ack))|
    ensures Tokens(File(Keep(Tokens(wal), AckSet(ack)), None)) == Keep(Tokens(wal), AckSet(ack))
  {
    UnackedKeep(Tokens(wal), AckSet(ack), AckSet([]));
    UnackedMember(Tokens(wal), AckSet(ack));
    assert AckSet(ack) + AckSet([]) == AckSet(ack);
  }

  // ---------------------------------------------------------------- an id acknowledged twice

  function AppendSteps(payload: int, size: Positive): seq<Label<int>> {
    [AppendBegin(payload, size), Write, Return]
  }

  function EmptyServer(): St<int> {
    St(File([], None), [], 0, {}, 0, 0, 0, Ready, Idle, Serving, true, 0)
  }

  // What the start-up makes of empty files.
  lemma EmptyServerStarts()
    ensures Exec(NewProcess(File([], None), [], 0), StartSteps()) == Some(EmptyServer())
  {
    var s: St<int> := NewProcess(File([], None), [], 0);
    StartRuns(s);
    assert Tokens(s.wal) == [];
    assert Started(s) == EmptyServer();
  }

  // A server whose WAL holds one pending record.
  function OneRecord(payload: int, size: Positive): St<int> {
    EmptyServer().(wal := File([Line(Some(Record(1, payload)), size)], None), nextID := 1, pendingCount := 1)
  }

  // A server after one more answered append.
  function Appended(s: St<int>, payload: int, size: Positive): St<int> {
    s.(wal := File(s.wal.lines + [Line(Some(Record(s.nextID + 1, payload)), size)], None),
       nextID := s.nextID + 1, pendingCount := s.pendingCount + 1)
  }

  lemma AppendRuns(s: St<int>, payload: int, size: Positive)
    requires s.stage.Serving? && s.phase.Idle? && s.writer.Ready? && s.maxPending <= 0 && s.wal.tail.None?
    ensures Exec(s, AppendSteps(payload, size)) == Some(Appended(s, payload, size))
  {
    hide Exec, Enabled, Apply;
    var all := AppendSteps(payload, size);
    var line := Line(Some(Record(s.nextID + 1, payload)), size);
    var s1 := s.(nextID := s.nextID + 1, phase := Writing(line));
    var s2 := s1.(wal := File(s.wal.lines + [line], None), phase := Written(line));
    AppendWritten(s, payload, size);
    ExecNil(s);
    assert all[..0] == [];
    ExecNext(s, all, 0, s);
    ExecNext(s, all, 1, s1);
    ExecNext(s, all, 2, s2);
    assert all[..3] == all;
  }

  lemma AppendWritten(s: St<int>, payload: int, size: Positive)
    requires s.stage.Serving? && s.phase.Idle? && s.writer.Ready? && s.maxPending <= 0 && s.wal.tail.None?
    ensures var line := Line(Some(Record(s.nextID + 1, payload)), size);
            var s1 := s.(nextID := s.nextID + 1, phase := Writing(line));
            var s2 := s1.(wal := File(s.wal.lines + [line], None), phase := Written(line));
            && Enabled(s, AppendBegin(payload, size)) && Apply(s, AppendBegin(payload, size)) == s1
            && Enabled(s1, Write) && Apply(s1, Write) == s2
            && Enabled(s2, Return) && Apply(s2, Return) == Appended(s, payload, size)
  {
    hide Keep, Tokens, MaxId, AckSet, Unacked, WriteFragment, Fits;
  }

  lemma FirstAppendRuns(payload: int, size: Positive)
    ensures Exec(EmptyServer(), AppendSteps(payload, size)) == Some(OneRecord(payload, size))
  {
    hide Exec;
    AppendRuns(EmptyServer(), payload, size);
    assert [] + [Line(Some(Record(1, payload)), size)] == [Line(Some(Record(1, payload)), size)];
  }

  function AckSteps(): seq<Label<int>> {
    [AckBegin([1]), AckNext, AckEnd(true)]
  }

  function AckedOnce(s: St<int>): St<int> {
    s.(ack := [1], acked := {1}, pendingCount := s.pendingCount - 1, acksSince := 1, phase := Starting)
  }

  // Ack([1]) on an idle server with nothing acknowledged yet; five seconds have passed.
  lemma AckRuns(s: St<int>)
    requires Up(s) && s.phase.Idle? && s.ack == [] && s.acked == {} && s.acksSince == 0
    ensures Exec(s, AckSteps()) == Some(AckedOnce(s))
  {
    hide Exec, Enabled, Apply;
    var all := AckSteps();
    var s1 := s.(phase := Acking([1], 0));
    var s2 := s.(ack := [1], acked := {1}, pendingCount := s.pendingCount - 1, phase := Acking([], 1));
    AckWritten(s);
    ExecNil(s);
    assert all[..0] == [];
    ExecNext(s, all, 0, s);
    ExecNext(s, all, 1, s1);
    ExecNext(s, all, 2, s2);
    assert all[..3] == all;
  }

  lemma AckWritten(s: St<int>)
    requires Up(s) && s.phase.Idle? && s.ack == [] && s.acked == {} && s.acksSince == 0
    ensures var s1 := s.(phase := Acking([1], 0));
            var s2 := s.(ack := [1], acked := {1}, pendingCount := s.pendingCount - 1, phase := Acking([], 1));
            && Enabled(s, AckBegin([1])) && Apply(s, AckBegin([1])) == s1
            && Enabled(s1, AckNext) && Apply(s1, AckNext) == s2
            && Enabled(s2, AckEnd(true)) && Apply(s2, AckEnd(true)) == AckedOnce(s)
  {
    FirstAck(s.(phase := Acking([1], 0)));
    hide Keep, Tokens, MaxId, AckSet, Unacked, WriteLine, WriteFragment, Fits;
  }

  lemma FirstAck(s: St<int>)
    requires s.phase == Acking([1], 0) && s.ack == [] && s.acked == {}
    ensures Enabled(s, AckNext)
    ensures Apply(s, AckNext)
         == s.(ack := [1], acked := {1}, pendingCount := s.pendingCount - 1, phase := Acking([], 1))
  {
    assert [] + [1] == [1] && [1][1..] == [];
  }

  lemma AckThenCompactRuns(size: Positive, payload: int)
    requires size < SCAN_LIMIT
    ensures Exec(OneRecord(payload, size), AckSteps() + CompactSteps()) == Some(EmptyServer().(nextID := 1))
  {
    var s := OneRecord(payload, size);
    AckRuns(s);
    var t := AckedOnce(s);
    assert Tokens(t.wal) == t.wal.lines;
    assert Keep(t.wal.lines[..0], t.acked) == [];
    assert Keep(Tokens(t.wal), t.acked) == [];
    CompactionRuns(t);
    ExecConcat(s, AckSteps(), CompactSteps());
  }

  /**
   An id acknowledged, compacted away and acknowledged again drives the counter below the number of pending records,
   here to minus one.
   */
  lemma DoubleAckBreaksCount() returns (labels: seq<Label<int>>, t: St<int>)
    ensures Exec(EmptyServer(), labels) == Some(t) && forall l | l in labels :: !IoError(l) && !l.Crash?
    ensures t.pendingCount == -1 && Log(t) == []
  {
    var append, ack, compact := AppendSteps(8, 20), AckSteps(), CompactSteps<int>();
    FirstAppendRuns(8, 20);
    AckThenCompactRuns(20, 8);
    ExecConcat(EmptyServer(), append, ack + compact);
    AckRuns(EmptyServer().(nextID := 1));
    labels := append + (ack + compact) + ack;
    ExecConcat(EmptyServer(), append + (ack + compact), ack);
    t := AckedOnce(EmptyServer().(nextID := 1));
  }

  // ---------------------------------------------------------------- a start-up compaction that failed

  // What a crash leaves between the rename of a compaction and the emptying of the acknowledgement file.
  function StaleAck(): St<int> {
    NewProcess(File([], None), [1], 0)
  }

  lemma StaleAckReached()
    ensures Exec(OneRecord(8, 20), AckSteps() + (CompactSteps()[..4] + [Crash(Nothing)])) == Some(StaleAck())
  {
    var s := OneRecord(8, 20);
    AckRuns(s);
    var t := AckedOnce(s);
    assert Tokens(t.wal) == t.wal.lines;
    assert Keep(t.wal.lines[..0], t.acked) == [];
    assert Keep(Tokens(t.wal), t.acked) == [];
    CompactRuns(t, 4);
    var steps: seq<Label<int>> := CompactSteps()[..4];
    assert (steps + [Crash(Nothing)])[..|steps|] == steps;
    ExecConcat(s, AckSteps(), steps + [Crash(Nothing)]);
  }

  function FailedStartSteps(): seq<Label<int>> {
    [Open, Replay, CompactBegin, Abort, Serve]
  }

  function StaleServer(): St<int> {
    EmptyServer().(ack := [1], acked := {1}, clean := false)
  }

  lemma StaleOpens()
    ensures Enabled(StaleAck(), Open) && Apply(StaleAck(), Open) == StaleServer().(stage := Opened)
  {
    assert AckSet([1]) == {1} by {
      AckSetSnoc([], 1);
      assert [] + [1] == [1] && AckSet([]) == {};
    }
    hide AckSet;
  }

  lemma FailedStartRuns()
    ensures Exec(StaleAck(), FailedStartSteps()) == Some(StaleServer())
  {
    hide Exec, Enabled, Apply;
    var all, s := FailedStartSteps(), StaleAck();
    var s1 := StaleServer().(stage := Opened);
    var s2 := StaleServer().(stage := Replayed);
    StaleOpens();
    StartGivesUp(s1);
    ExecNil(s);
    assert all[..0] == [];
    ExecNext(s, all, 0, s);
    ExecNext(s, all, 1, s1);
    ExecNext(s, all, 2, s2);
    ExecNext(s, all, 3, s2.(phase := Starting));
    ExecNext(s, all, 4, s2);
    assert all[..5] == all;
  }

  // The replay, and a compaction that ends before it has done anything.
  lemma StartGivesUp(s: St<int>)
    requires s == StaleServer().(stage := Opened)
    ensures var s2 := s.(stage := Replayed);
            && Enabled(s, Replay) && Apply(s, Replay) == s2
            && Enabled(s2, CompactBegin) && Apply(s2, CompactBegin) == s2.(phase := Starting)
            && Enabled(s2.(phase := Starting), Abort) && Apply(s2.(phase := Starting), Abort) == s2
            && Enabled(s2, Serve) && Apply(s2, Serve) == s2.(stage := Serving)
  {
  }

  function StaleAnswered(): St<int> {
    StaleServer().(wal := File([Line(Some(Record(1, 9)), 20)], None), nextID := 1, pendingCount := 1)
  }

  lemma StaleAppendRuns()
    ensures Exec(StaleServer(), AppendSteps(9, 20)) == Some(StaleAnswered())
  {
    hide Exec;
    AppendRuns(StaleServer(), 9, 20);
    assert [] + [Line(Some(Record(1, 9)), 20)] == [Line(Some(Record(1, 9)), 20)];
  }

  /**
   The start-up only warns when its compaction fails. On the files above the next insert is answered, although no later
   process will ever replay it: its id is already in the acknowledgement file.
   */
  lemma FailedStartLosesRecord()
    ensures Exec(StaleAck(), FailedStartSteps() + AppendSteps(9, 20)) == Some(StaleAnswered())
    ensures Log(StaleAnswered()) == []
  {
    FailedStartRuns();
    StaleAppendRuns();
    ExecConcat(StaleAck(), FailedStartSteps(), AppendSteps(9, 20));
    AckSetSnoc([], 1);
    assert [] + [1] == [1];
    UnackedSnoc([], StaleAnswered().wal.lines[0], {1});
    assert Tokens(StaleAnswered().wal) == [] + [StaleAnswered().wal.lines[0]];
  }

  // ---------------------------------------------------------------- a line cut short by a crash

  // A crash after five bytes of a line, and a start-up whose compaction does nothing.
  function TornSteps(): seq<Label<int>> {
    [AppendBegin(8, 20), Crash(Torn(5)), Open, Replay, CompactBegin, Abort, Serve]
  }

  function TornServer(): St<int> {
    EmptyServer().(wal := File([], Some(Line(None, 5))), clean := false)
  }

  lemma TornRuns()
    ensures Exec(EmptyServer(), TornSteps()) == Some(TornServer())
  {
    hide Exec, Enabled, Apply;
    var all, s := TornSteps(), EmptyServer();
    var s1 := s.(nextID := 1, phase := Writing(Line(Some(Record(1, 8)), 20)));
    var s2 := NewProcess(TornServer().wal, [], 0);
    var s3, s4 := TornServer().(stage := Opened), TornServer().(stage := Replayed);
    TornBytes(s);
    TornOpens();
    TornGivesUp(s3);
    ExecNil(s);
    assert all[..0] == [];
    ExecNext(s, all, 0, s);
    ExecNext(s, all, 1, s1);
    ExecNext(s, all, 2, s2);
    ExecNext(s, all, 3, s3);
    ExecNext(s, all, 4, s4);
    ExecNext(s, all, 5, s4.(phase := Starting));
    ExecNext(s, all, 6, s4);
    assert all[..7] == all;
  }

  lemma TornBytes(s: St<int>)
    requires s == EmptyServer()
    ensures var s1 := s.(nextID := 1, phase := Writing(Line(Some(Record(1, 8)), 20)));
            && Enabled(s, AppendBegin(8, 20)) && Apply(s, AppendBegin(8, 20)) == s1
            && Enabled(s1, Crash(Torn(5))) && Apply(s1, Crash(Torn(5))) == NewProcess(TornServer().wal, [], 0)
  {
    hide Keep, MaxId, Unacked, AckSet;
  }

  lemma TornOpens()
    ensures var s := NewProcess(TornServer().wal, [], 0);
            Enabled(s, Open) && Apply(s, Open) == TornServer().(stage := Opened)
  {
    var line: Line<int> := Line(None, 5);
    assert Tokens(TornServer().wal) == [line] && AckSet([]) == {};
    UnackedSnoc([], line, {});
    assert [] + [line] == [line] && [line][..0] == [];
    hide Unacked;
  }

  lemma TornGivesUp(s: St<int>)
    requires s == TornServer().(stage := Opened)
    ensures var s4 := s.(stage := Replayed);
            && Enabled(s, Replay) && Apply(s, Replay) == s4
            && Enabled(s4, CompactBegin) && Apply(s4, CompactBegin) == s4.(phase := Starting)
            && Enabled(s4.(phase := Starting), Abort) && Apply(s4.(phase := Starting), Abort) == s4
            && Enabled(s4, Serve) && Apply(s4, Serve) == TornServer()
  {
  }

  /** Then the next insert is answered, although its line is glued to the torn one and no process will ever read it. */
  lemma TornLineSwallows()
    ensures var line := Line(Some(Record(1, 9)), 30);
            var t := TornServer().(wal := File([Line(None, 35)], None), nextID := 1, pendingCount := 1);
            Exec(TornServer(), AppendSteps(9, 30)) == Some(t) && Log(t) == []
  {
    var all, s := AppendSteps(9, 30), TornServer();
    var line := Line(Some(Record(1, 9)), 30);
    var s1 := s.(nextID := 1, phase := Writing(line));
    var s2 := s1.(wal := File([Line(None, 35)], None), phase := Written(line));
    GluedAppend(s, s1, s2);
    hide Enabled, Apply;
    ExecNil(s);
    assert all[..0] == [];
    ExecNext(s, all, 0, s);
    ExecNext(s, all, 1, s1);
    ExecNext(s, all, 2, s2);
    assert all[..3] == all;
    var glued: Line<int> := Line(None, 35);
    UnackedSnoc([], glued, AckSet([]));
    assert [] + [glued] == [glued] && Tokens(File([glued], None)) == [glued];
  }

  lemma GluedAppend(s: St<int>, s1: St<int>, s2: St<int>)
    requires s == TornServer() && s1 == s.(nextID := 1, phase := Writing(Line(Some(Record(1, 9)), 30)))
    requires s2 == s1.(wal := File([Line(None, 35)], None), phase := Written(Line(Some(Record(1, 9)), 30)))
    ensures Enabled(s, AppendBegin(9, 30)) && Apply(s, AppendBegin(9, 30)) == s1
    ensures Enabled(s1, Write) && Apply(s1, Write) == s2
    ensures Enabled(s2, Return) && Apply(s2, Return) == s2.(phase := Idle, pendingCount := 1)
  {
    hide Keep, MaxId, Unacked, AckSet;
    assert [] + [Glue(s.wal.tail.value, 30)] == [Glue(s.wal.tail.value, 30)];
  }

  // ---------------------------------------------------------------- lines longer than the scanner's default

  lemma {:induction false} KeepMember<P>(ts: seq<Line<P>>, acked: set<nat>)
    ensures forall l :: l in Keep(ts, acked) <==> l in ts && Live(l, acked)
  {
    if ts != [] {
      KeepMember(ts[..|ts| - 1], acked);
      assert ts == ts[..|ts| - 1] + [ts[|ts| - 1]];
    }
  }

  lemma KeptLinesFit<P>(ts: seq<Line<P>>, acked: set<nat>, limit: nat)
    ensures Fits(Keep(ts, acked), limit) <==> forall l | l in ts && Live(l, acked) :: l.size < limit
  {
    KeepMember(ts, acked);
    hide Keep, Live;
    var kept := Keep(ts, acked);
    assert forall l | l in kept :: exists i | 0 <= i < |kept| :: kept[i] == l;
  }

  /**
   A compaction that meets no I/O error opens the WAL again after the rename if and only if every pending line fits the
   scanner's default buffer. If one does not, it ends there, with no writer.
   */
  lemma ReopenExactly<P>(s: St<P>)
    requires CompactAllowed(s, 3)
    ensures var t := CompactAt(s, 3);
            && (Enabled(t, Reopen) <==> forall l | l in Tokens(s.wal) && Live(l, s.acked) :: l.size < 65536)
            && Enabled(t, Abort) && Apply(t, Abort) == t.(phase := Idle) && t.writer.Closed?
  {
    hide Fits, Keep, Live;
    KeptLinesFit(Tokens(s.wal), s.acked, SCAN_LIMIT);
    assert Tokens(CompactAt(s, 3).wal) == Keep(Tokens(s.wal), s.acked);
  }

  // No writer, and a pending line that is too long for a compaction to open the WAL again.
  ghost predicate Jammed<P>(s: St<P>, long: Line<P>) {
    && Up(s) && s.writer.Closed? && long in Tokens(s.wal) && Live(long, s.acked) && long.size >= SCAN_LIMIT
    && (s.phase.Staged? || s.phase.Detached? || s.phase.Renamed? ==> long in s.phase.kept)
    && !s.phase.Written? && !s.phase.Reopened? && !Emptying(s.phase)
  }

  // The process lives on and does not acknowledge the line.
  predicate LeavesBe<P>(s: St<P>, l: Label<P>, long: Line<P>) {
    !l.Crash? && (l.AckNext? && s.phase.Acking? && s.phase.todo != [] && long.parsed.Some? ==>
      s.phase.todo[0] != long.parsed.value.id)
  }

  lemma LongStaysShut<P>(s: St<P>, long: Line<P>)
    requires Jammed(s, long)
    ensures !Fits(Tokens(s.wal), SCAN_LIMIT)
    ensures long in Keep(Tokens(s.wal), s.acked)
    ensures forall kept | long in kept :: long in Tokens(File(kept, None))
  {
    KeepMember(Tokens(s.wal), s.acked);
    var i :| 0 <= i < |Tokens(s.wal)| && Tokens(s.wal)[i] == long;
  }

  lemma JammedStep<P>(s: St<P>, l: Label<P>, long: Line<P>)
    requires Jammed(s, long) && Enabled(s, l) && LeavesBe(s, l, long)
    ensures Jammed(Apply(s, l), long) && !l.Write?
  {
    hide Jammed, Enabled, Apply, LeavesBe, Tokens, Live;
    if Compacting(s.phase) {
      JammedCompaction(s, l, long);
    } else {
      JammedElse(s, l, long);
    }
  }

  lemma JammedCompaction<P>(s: St<P>, l: Label<P>, long: Line<P>)
    requires Jammed(s, long) && Enabled(s, l) && LeavesBe(s, l, long) && Compacting(s.phase)
    ensures Jammed(Apply(s, l), long) && !l.Write?
  {
    LongStaysShut(s, long);
    hide Keep, MaxId, AckSet, Unacked, Tokens, Fits, Live;
  }

  lemma JammedElse<P>(s: St<P>, l: Label<P>, long: Line<P>)
    requires Jammed(s, long) && Enabled(s, l) && LeavesBe(s, l, long) && !Compacting(s.phase)
    ensures Jammed(Apply(s, l), long) && !l.Write?
  {
    hide Keep, MaxId, AckSet, Unacked, Tokens, Fits;
  }

  /**
   Then nothing is written any more: no append of the process ends otherwise than in the panic of a nil writer, whatever
   else it does, as long as the line is not acknowledged.
   */
  lemma {:induction false} JammedRun<P(!new)>(states: seq<St<P>>, labels: seq<Label<P>>, long: Line<P>, n: nat)
    requires IsRun(states, labels) && n <= |labels| && Jammed(states[0], long)
    requires forall i | 0 <= i < n :: LeavesBe(states[i], labels[i], long)
    ensures Jammed(states[n], long) && forall i | 0 <= i < n :: !labels[i].Write?
  {
    hide Jammed, LeavesBe, Enabled, Apply;
    if n > 0 {
      JammedRun(states, labels, long, n - 1);
      JammedStep(states[n - 1], labels[n - 1], long);
    }
  }

  // A server with a short pending record and then a long one.
  function TwoRecords(payload: int, size: Positive): St<int> {
    Appended(OneRecord(8, 20), payload, size)
  }

  lemma TwoAppendsRun(payload: int, size: Positive)
    ensures Exec(EmptyServer(), AppendSteps(8, 20) + AppendSteps(payload, size)) == Some(TwoRecords(payload, size))
  {
    hide Exec;
    FirstAppendRuns(8, 20);
    AppendRuns(OneRecord(8, 20), payload, size);
    ExecConcat(EmptyServer(), AppendSteps(8, 20), AppendSteps(payload, size));
  }

  lemma LongLineKept(payload: int, size: Positive)
    ensures var s := AckedOnce(TwoRecords(payload, size));
            && Tokens(s.wal) == [s.wal.lines[0], Line(Some(Record(2, payload)), size)] && s.wal.lines[0].size == 20
            && Keep(Tokens(s.wal), s.acked) == [Line(Some(Record(2, payload)), size)]
  {
    var s, l := AckedOnce(TwoRecords(payload, size)), Line(Some(Record(2, payload)), size);
    UnackedSnoc([], s.wal.lines[0], s.acked);
    UnackedSnoc([] + [s.wal.lines[0]], l, s.acked);
    assert Tokens(s.wal) == [] + [s.wal.lines[0]] + [l];
    assert Keep([], s.acked) + [l] == [l];
  }

  /**
   It needs no I/O error: two answered appends, of a short record and of one from 64 KiB up to 1 MiB, and the
   acknowledgement of the first, five seconds after the last compaction, end in a serving process that is jammed.
   */
  lemma LongRecordJams(payload: int, size: Positive) returns (labels: seq<Label<int>>, s: St<int>, t: St<int>)
    requires SCAN_LIMIT <= size < REPLAY_LIMIT
    ensures Exec(EmptyServer(), labels) == Some(s) && forall l | l in labels :: !IoError(l) && !l.Crash?
    ensures s.phase.Renamed? && !Enabled(s, Reopen) && Enabled(s, Abort) && Apply(s, Abort) == t
    ensures t.stage.Serving? && t.phase.Idle? && Jammed(t, Line(Some(Record(2, payload)), size))
  {
    hide Exec, AckedOnce, CompactAt, CompactAllowed, Enabled, Apply, Jammed, IoError;
    var two := TwoRecords(payload, size);
    var acked := AckedOnce(two);
    var appends, ack, compact := AppendSteps(8, 20) + AppendSteps(payload, size), AckSteps(), CompactSteps<int>()[..3];
    TwoAppendsRun(payload, size);
    AckRuns(two);
    LongLineJams(payload, size);
    CompactRuns(acked, 3);
    ExecConcat(EmptyServer(), appends, ack);
    ExecConcat(EmptyServer(), appends + ack, compact);
    labels, s, t := appends + ack + compact, CompactAt(acked, 3), CompactAt(acked, 3).(phase := Idle);
    NoErrors(payload, size);
  }

  lemma NoErrors(payload: int, size: Positive)
    ensures forall l | l in AppendSteps(8, 20) + AppendSteps(payload, size) + AckSteps() + CompactSteps()[..3] ::
              !IoError(l) && !l.Crash?
  {
  }

  lemma LongLineJams(payload: int, size: Positive)
    requires SCAN_LIMIT <= size < REPLAY_LIMIT
    ensures var acked := AckedOnce(TwoRecords(payload, size));
            var s := CompactAt(acked, 3);
            && CompactAllowed(acked, 3) && s.phase.Renamed? && !Enabled(s, Reopen)
            && Enabled(s, Abort) && Apply(s, Abort) == s.(phase := Idle) && s.stage.Serving?
            && Jammed(s.(phase := Idle), Line(Some(Record(2, payload)), size))
  {
    var acked, l := AckedOnce(TwoRecords(payload, size)), Line(Some(Record(2, payload)), size);
    LongLineKept(payload, size);
    assert CompactAllowed(acked, 3);
    hide CompactAllowed, Enabled, Apply, Keep, Tokens;
    ReopenExactly(acked);
    assert l in Tokens(acked.wal) && Live(l, acked.acked);
    assert Tokens(File([l], None)) == [l] by {
      OneToken(l);
    }
  }

  lemma OneToken<P>(l: Line<P>)
    ensures Tokens(File([l], None)) == [l]
  {
  }

  /**
   A restart after an answered append works if and only if the new line fits the default scanner buffer; one that does
   not makes NewJournal fail on every later start, with the record still in the file.
   */
  lemma RestartExactly<P>(s: St<P>, payload: P, size: Positive)
    requires Inv(s) && Enabled(s, AppendBegin(payload, size)) && SafeToAppend(s) && s.writer.Ready?
    requires Fits(Tokens(s.wal), SCAN_LIMIT)
    ensures var t := Apply(Apply(Apply(Apply(s, AppendBegin(payload, size)), Write), Return), Crash(Nothing));
            && (size < 65536 <==> exists l :: Enabled(t, l))
            && Log(t) == Log(s) + [Record(s.nextID + 1, payload)]
  {
    var line := Line(Some(Record(s.nextID + 1, payload)), size);
    var s2 := Apply(Apply(s, AppendBegin(payload, size)), Write);
    var t := Apply(Apply(s2, Return), Crash(Nothing));
    AppendExact(s, payload, size);
    assert t == NewProcess(s2.wal, s.ack, s.maxPending);
    assert Tokens(t.wal) == Tokens(s.wal) + [line];
    hide Tokens, Inv, SafeToAppend, Log, AckSet, Apply;
    OnlyOpen(t);
    LongerFits(Tokens(s.wal), line, SCAN_LIMIT);
  }

  // A process that has not started can only be started.
  lemma OnlyOpen<P>(t: St<P>)
    requires t == NewProcess(t.wal, t.ack, t.maxPending)
    ensures (exists l :: Enabled(t, l)) <==> Fits(Tokens(t.wal), SCAN_LIMIT)
  {
    hide Fits;
    if Fits(Tokens(t.wal), SCAN_LIMIT) {
      assert Enabled(t, Open);
    }
  }
}
