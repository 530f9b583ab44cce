/**
 The journal itself: an object whose methods change its fields and the two files it owns. Each method returns, as a
 ghost value, the steps of the transition system it went through, so a crash at any point inside it is a crash between
 two of those steps. Which I/O action fails is a parameter.
 */
module JournalObject {
  import opened Options
  import opened Wal
  import opened JournalMachine
  import opened JournalSafety
  import opened JournalCounts

  // NilWriter is no error return: the append stops in a panic, with the lock released on the way out.
  datatype Error = Backlog | Io | NilWriter

  // What the disk does to an append: it takes the line, cuts it short, or takes it and then fails to sync.
  datatype AppendIo = Whole | CutShort(partly: Fragment) | NoSync

  // The first action of compactLocked that fails, if any. AtTmp stands for all before the temporary file is written:
  // the sync, the opening of the WAL and of that file; AtReopen for the opening of the new WAL and its scan; AtSync
  // for the sync that ends it.
  datatype Fault =
    | NoFault | AtTmp | AtTmpClose | AtRename | AtReopen | AtAckClose | AtAckEmpty | AtAckOpen | AtSync

  // Which of the directory and the files can be opened at start, and for the two scans of the WAL.
  datatype OpenIo = OpenIo(dirOk: bool, ackOk: bool, walOk: bool, scanOk: bool, ackFileOk: bool, countOk: bool)

  // What happens during Ack: whether the acknowledgement file is open or can be opened, the line of which id is not
  // written, whether the sync fails, whether five seconds have passed since the last compaction, and what happens to
  // the compaction.
  datatype AckIo = AckIo(opens: bool, failAt: Option<nat>, syncFails: bool, elapsed: bool, fault: Fault)

  // The steps of an append.
  function AppendTrace<P>(refused: bool, writer: Writer, payload: P, size: Positive, io: AppendIo): seq<Label<P>> {
    if refused then []
    else if !writer.Ready? then [AppendBegin(payload, size), WriteFail(Nothing)]
    else
      match io
      case Whole => [AppendBegin(payload, size), Write, Return]
      case NoSync => [AppendBegin(payload, size), Write, SyncFail]
      case CutShort(partly) => [AppendBegin(payload, size), WriteFail(partly)]
  }

  // How many of the eight actions of a compaction take place.
  function Reaches<P>(s: St<P>, fault: Fault): (k: nat)
    ensures k <= 8
  {
    if s.writer.Stuck? || fault.AtTmp? || !Fits(Tokens(s.wal), REPLAY_LIMIT) then 0
    else if fault.AtTmpClose? then 1
    else if fault.AtRename? then 2
    else if fault.AtReopen? || !Fits(Keep(Tokens(s.wal), s.acked), SCAN_LIMIT) then 3
    else if fault.AtAckClose? then 5
    else if fault.AtAckEmpty? then 6
    else if fault.AtAckOpen? then 7
    else 8
  }

  // What a compaction leaves.
  function Compacted<P>(s: St<P>, fault: Fault): St<P> {
    CompactAt(s, Reaches(s, fault)).(phase := Idle)
  }

  function CompactTrace<P>(k: nat): seq<Label<P>>
    requires k <= 8
  {
    CompactSteps()[..k] + (if k < 8 then [Abort] else [])
  }

  // The id at this place gets a line in the acknowledgement file.
  predicate Writes(ids: seq<nat>, acked: set<nat>, i: nat) {
    i < |ids| && ids[i] != 0 && ids[i] !in acked && ids[i] !in ids[..i]
  }

  // The ids that get one, in order.
  function NewAcks(ids: seq<nat>, acked: set<nat>): (written: seq<nat>)
    ensures |written| <= |ids|
  {
    if ids == [] then []
    else NewAcks(ids[..|ids| - 1], acked) + (if Writes(ids, acked, |ids| - 1) then [ids[|ids| - 1]] else [])
  }

  // How far the loop of Ack comes.
  function Until(ids: seq<nat>, acked: set<nat>, failAt: Option<nat>): (n: nat)
    ensures n <= |ids|
  {
    if failAt.Some? && Writes(ids, acked, failAt.value) then failAt.value else |ids|
  }

  function WithAcks<P>(s: St<P>, written: seq<nat>): St<P> {
    s.(ack := s.ack + written, acked := s.acked + AckSet(written), pendingCount := s.pendingCount - |written|)
  }

  // A compaction follows when some line was written, and 100 have been since the last one or it is five seconds old.
  predicate Due(acksSince: nat, wrote: nat, elapsed: bool) {
    wrote > 0 && (acksSince + wrote >= 100 || elapsed)
  }

  // What Ack leaves.
  function AfterAck<P>(s: St<P>, ids: seq<nat>, io: AckIo): St<P> {
    if ids == [] || !io.opens then s
    else
      var n := Until(ids, s.acked, io.failAt);
      var wrote := |NewAcks(ids[..n], s.acked)|;
      var t := WithAcks(s, NewAcks(ids[..n], s.acked));
      if n < |ids| then t
      else
        var u := t.(acksSince := s.acksSince + wrote);
        if (wrote > 0 && io.syncFails) || !Due(s.acksSince, wrote, io.elapsed) then u
        else Compacted(u.(phase := Starting), io.fault)
  }

  // Nothing goes wrong in it.
  predicate AckSucceeds<P>(s: St<P>, ids: seq<nat>, io: AckIo) {
    || ids == []
    || (io.opens && Until(ids, s.acked, io.failAt) == |ids|
        && var wrote := NewAcks(ids, s.acked);
           (wrote != [] ==> !io.syncFails)
           && (Due(s.acksSince, |wrote|, io.elapsed) ==>
                 io.fault.NoFault?
                 && Reaches(WithAcks(s, wrote).(acksSince := s.acksSince + |wrote|, phase := Starting), NoFault) == 8))
  }

  lemma {:induction false} NewAcksMeaning(ids: seq<nat>, acked: set<nat>)
    ensures forall id :: id in NewAcks(ids, acked) <==> id in ids && id != 0 && id !in acked
    ensures forall i, j | 0 <= i < j < |NewAcks(ids, acked)| :: NewAcks(ids, acked)[i] != NewAcks(ids, acked)[j]
  {
    if ids != [] {
      var pre, last := ids[..|ids| - 1], ids[|ids| - 1];
      NewAcksMeaning(pre, acked);
      assert ids == pre + [last];
    }
  }

  // The two files, which outlive every process.
  class Disk<P> {
    var wal: File<P>
    var ack: seq<nat>

    constructor ()
      ensures wal == File([], None) && ack == []
    {
      wal, ack := File([], None), [];
    }
  }

  // A log after a list of acknowledgements.
  function WithoutAll<P>(log: seq<Record<P>>, ids: seq<nat>): seq<Record<P>> {
    if ids == [] then log else Without(WithoutAll(log, ids[..|ids| - 1]), ids[|ids| - 1])
  }

  lemma WithoutNone<P>(log: seq<Record<P>>)
    ensures WithoutAll(log, []) == log
  {
  }

  lemma WithoutNext<P>(log: seq<Record<P>>, ids: seq<nat>, i: nat)
    requires i < |ids|
    ensures WithoutAll(log, ids[..i + 1]) == Without(WithoutAll(log, ids[..i]), ids[i])
  {
    assert ids[..i + 1][..i] == ids[..i];
  }

  // What is left is what was there and has none of these ids.
  lemma {:induction false} WithoutAllMeaning<P>(log: seq<Record<P>>, ids: seq<nat>)
    ensures forall r :: r in WithoutAll(log, ids) <==> r in log && r.id !in ids
  {
    if ids != [] {
      var pre, last := ids[..|ids| - 1], ids[|ids| - 1];
      WithoutAllMeaning(log, pre);
      WithoutMember(WithoutAll(log, pre), last);
      assert ids == pre + [last];
    }
  }

  // One more step of an execution that keeps the invariant.
  lemma Step<P>(s: St<P>, trace: seq<Label<P>>, now: St<P>, l: Label<P>)
    requires Exec(s, trace) == Some(now) && Enabled(now, l)
    ensures Exec(s, trace + [l]) == Some(Apply(now, l))
    ensures Inv(now) && Careful(now, l) ==>
              Inv(Apply(now, l)) && Log(Apply(now, l)) == LogStep(Log(now), EventOf(now, l))
  {
    assert (trace + [l])[..|trace|] == trace;
    if Inv(now) && Careful(now, l) {
      StepRefines(now, l);
    }
  }

  predicate Refused<P>(s: St<P>) {
    s.maxPending > 0 && s.pendingCount >= s.maxPending
  }

  // The three ways through appendRecord.
  function Unwritten<P>(s: St<P>, line: Filled<P>, partly: Fragment): St<P> {
    s.(nextID := s.nextID + 1, wal := WriteFragment(s.wal, line, partly),
       writer := if s.writer.Ready? then Stuck else s.writer,
       uncounted := s.uncounted + (if partly.AllButNewline? then 1 else 0))
  }

  lemma AppendUnwritten<P>(s: St<P>, payload: P, size: Positive, partly: Fragment)
    requires s.stage.Serving? && s.phase.Idle? && !Refused(s) && (!partly.Nothing? ==> s.writer.Ready?)
    ensures var t := Unwritten(s, Line(Some(Record(s.nextID + 1, payload)), size), partly);
            && Exec(s, [AppendBegin(payload, size), WriteFail(partly)]) == Some(t)
            && (Inv(s) && SafeToAppend(s) ==>
                  Inv(t) && (Log(t) == Log(s) || Log(t) == Log(s) + [Record(t.nextID, payload)]))
  {
    var begun := Apply(s, AppendBegin(payload, size));
    Step(s, [], s, AppendBegin(payload, size));
    Step(s, [] + [AppendBegin(payload, size)], begun, WriteFail(partly));
    assert [] + [AppendBegin(payload, size)] + [WriteFail(partly)] == [AppendBegin(payload, size), WriteFail(partly)];
  }

  function Finished<P>(s: St<P>, line: Filled<P>, synced: bool): St<P> {
    s.(nextID := s.nextID + 1, wal := WriteLine(s.wal, line),
       pendingCount := s.pendingCount + (if synced then 1 else 0),
       uncounted := s.uncounted + (if synced then 0 else 1))
  }

  lemma AppendWritten<P>(s: St<P>, payload: P, size: Positive, synced: bool)
    requires s.stage.Serving? && s.phase.Idle? && !Refused(s) && s.writer.Ready?
    ensures var t := Finished(s, Line(Some(Record(s.nextID + 1, payload)), size), synced);
            && Exec(s, [AppendBegin(payload, size), Write, if synced then Return else SyncFail]) == Some(t)
            && (Inv(s) && SafeToAppend(s) ==> Inv(t) && Log(t) == Log(s) + [Record(t.nextID, payload)])
  {
    hide Unacked, Tokens, AckSet, Inv, SafeToAppend, WriteLine;
    var begun, last := Apply(s, AppendBegin(payload, size)), if synced then Return else SyncFail;
    Step(s, [], s, AppendBegin(payload, size));
    Step(s, [] + [AppendBegin(payload, size)], begun, Write);
    Step(s, [] + [AppendBegin(payload, size)] + [Write], Apply(begun, Write), last);
    assert [] + [AppendBegin(payload, size)] + [Write] + [last] == [AppendBegin(payload, size), Write, last];
  }

  // A compaction that an I/O error stops after k of its actions.
  lemma CompactStopped<P>(s: St<P>, k: nat)
    requires k < 8 && CompactAllowed(s, k) && Inv(s)
    ensures var t := CompactAt(s, k).(phase := Idle);
            Exec(s, CompactSteps()[..k] + [Abort]) == Some(t) && Inv(t) && Log(t) == Log(s)
  {
    CompactRuns(s, k);
    Step(s, CompactSteps()[..k], CompactAt(s, k), Abort);
  }

  // The four actions that follow the opening of the new WAL.
  lemma AfterFour<P>(s: St<P>)
    ensures var five := CompactAt(s, 4).(
                writer := Ready, acked := {}, pendingCount := |Keep(Tokens(s.wal), s.acked)|, acksSince := 0,
                uncounted := 0, phase := Cleared);
            && CompactAt(s, 5) == five && CompactAt(s, 6) == five.(phase := AckClosed)
            && CompactAt(s, 7) == five.(ack := [], clean := true, phase := AckEmptied)
            && CompactAt(s, 8) == five.(ack := [], clean := true, phase := Idle)
    ensures CompactAllowed(s, 8) ==> forall k | 5 <= k <= 8 :: CompactAllowed(s, k)
    ensures forall k | 0 <= k <= 4 :: CompactAt(s, k).stage == s.stage && CompactAt(s, k).nextID >= s.nextID
  {
    hide Keep, Tokens, Fits;
  }

  // An id the loop of Ack skips is not pending.
  lemma SkippedNotPending<P>(s: St<P>, id: nat)
    requires Inv(s) && Up(s) && !Fresh(s, id)
    ensures Without(Log(s), id) == Log(s)
  {
    UnackedIds(Tokens(s.wal), AckSet(s.ack));
    WithoutMember(Log(s), id);
  }

  // A finished compaction leaves the pending lines and nothing else.
  lemma CompactedShape<P>(s: St<P>)
    requires Inv(s) && s.phase.Starting?
    ensures var t := CompactAt(s, 8);
            && t.clean && t.ack == [] && t.wal.tail.None? && |t.wal.lines| == |Log(s)|
            && t.acksSince == 0
  {
    hide Tokens, Keep, Unacked, AckSet, Increasing, Ids;
    UnackedMember(Tokens(s.wal), s.acked);
    ReplayIsLog(s);
  }

  // Scanning one more line.
  lemma ScanNext<P>(ts: seq<Line<P>>, i: nat, acked: set<nat>, limit: nat)
    requires i < |ts| && Fits(ts[..i], limit) && ts[i].size < limit
    ensures Fits(ts[..i + 1], limit)
    ensures Keep(ts[..i + 1], acked)
         == if Live(ts[i], acked) then Keep(ts[..i], acked) + [ts[i]] else Keep(ts[..i], acked)
  {
    hide Keep, Live, Fits, Unacked;
    LongerFits(ts[..i], ts[i], limit);
    UnackedSnoc(ts[..i], ts[i], acked);
    assert ts[..i + 1] == ts[..i] + [ts[i]];
  }

  lemma FitsMeans<P>(ts: seq<Line<P>>, k: nat, limit: nat)
    requires k <= |ts|
    ensures Fits(ts[..k], limit) <==> forall j | 0 <= j < k :: ts[j].size < limit
  {
    assert forall j | 0 <= j < k :: ts[..k][j] == ts[j];
  }

  // There is only one first line that is too long.
  lemma FirstLong<P>(ts: seq<Line<P>>, i: nat, limit: nat)
    requires i < |ts| && Fits(ts[..i], limit) && ts[i].size >= limit
    ensures forall k | 0 <= k < |ts| && Fits(ts[..k], limit) && ts[k].size >= limit :: k == i
  {
    hide Fits;
    FitsMeans(ts, i, limit);
    forall k | 0 <= k < |ts| && Fits(ts[..k], limit) && ts[k].size >= limit ensures k == i {
      FitsMeans(ts, k, limit);
    }
  }

  lemma ScanNone<P>(ts: seq<Line<P>>, acked: set<nat>, limit: nat)
    ensures Fits(ts[..0], limit) && Keep(ts[..0], acked) == []
  {
  }

  lemma TooLong<P>(ts: seq<Line<P>>, i: nat, limit: nat)
    requires i < |ts| && ts[i].size >= limit
    ensures !Fits(ts, limit)
  {
  }

  lemma KeptBelow<P>(s: St<P>)
    requires Inv(s) && Up(s)
    ensures forall id | id in Ids(Keep(Tokens(s.wal), s.acked)) :: id <= s.nextID
  {
    KeepIds(Tokens(s.wal), s.acked);
  }

  // Where the holder of the lock is says nothing about the files; an idle process may start a compaction.
  lemma Released<P>(s: St<P>, p: Phase<P>)
    requires Inv(s) && Up(s) && (p.Idle? || p.Starting?)
    ensures Inv(s.(phase := p)) && Log(s.(phase := p)) == Log(s)
  {
  }

  lemma KeptShape<P>(s: St<P>)
    ensures |CompactAt(s, 8).wal.lines| == |Log(CompactAt(s, 8))| && CompactAt(s, 8).phase.Idle?
  {
    KeptLog(Tokens(s.wal), s.acked);
    hide Keep, Unacked, Tokens, AckSet, MaxId;
  }

  lemma KeptLog<P>(ts: seq<Line<P>>, acked: set<nat>)
    ensures |Unacked(Tokens(File(Keep(ts, acked), None)), AckSet([]))| == |Keep(ts, acked)|
  {
    hide Keep, Unacked;
    assert Tokens(File(Keep(ts, acked), None)) == Keep(ts, acked) && AckSet([]) == {};
    UnackedKeep(ts, acked, {});
    assert acked + {} == acked;
    UnackedMember(ts, acked);
  }

  /**
   What an Ack that succeeds leaves. When a compaction is due, the WAL is the pending records and the acknowledgement
   file is empty; otherwise the ids that are new are in that file, and fewer than 100 are waiting for a compaction.
   */
  lemma AckLeaves<P>(s: St<P>, ids: seq<nat>, io: AckIo)
    requires AckSucceeds(s, ids, io) && s.acksSince < 100 && s.phase.Idle?
    ensures var t, wrote := AfterAck(s, ids, io), NewAcks(ids, s.acked);
            if Due(s.acksSince, |wrote|, io.elapsed) then
              && t.ack == [] && t.wal.tail.None? && |t.wal.lines| == |Log(t)|
              && t.acksSince == 0 && t.acked == {} && t.writer.Ready?
            else
              && t.wal == s.wal && t.ack == s.ack + wrote && t.writer == s.writer && t.nextID == s.nextID
              && t.pendingCount == s.pendingCount - |wrote| && t.acksSince == s.acksSince + |wrote|
              && t.acksSince < 100
  {
    assert ids[..|ids|] == ids;
    var wrote := NewAcks(ids, s.acked);
    KeptShape(WithAcks(s, wrote).(acksSince := s.acksSince + |wrote|, phase := Starting));
    hide NewAcks, Keep, Tokens, MaxId, Log;
  }

  lemma WholeTrace<P>()
    ensures forall l | l in CompactTrace<P>(8) :: !IoError(l)
  {
  }

  lemma NoAcks<P>(s: St<P>)
    ensures NewAcks([], s.acked) == [] && WithAcks(s, []) == s
  {
    assert AckSet([]) == {};
  }

  // Whether the next id gets a line shows in memory.
  lemma NextAck<P>(s: St<P>, ids: seq<nat>, acked: set<nat>, i: nat)
    requires i < |ids| && acked == s.acked
    ensures var done := NewAcks(ids[..i], acked);
            var t := WithAcks(s, done);
            && (Writes(ids, acked, i) <==> ids[i] != 0 && ids[i] !in t.acked)
            && NewAcks(ids[..i + 1], acked) == (if Writes(ids, acked, i) then done + [ids[i]] else done)
            && WithAcks(s, done + [ids[i]])
               == t.(ack := t.ack + [ids[i]], acked := t.acked + {ids[i]}, pendingCount := t.pendingCount - 1)
  {
    var done := NewAcks(ids[..i], acked);
    NewAcksMeaning(ids[..i], acked);
    AckSetSnoc(done, ids[i]);
    assert s.ack + (done + [ids[i]]) == s.ack + done + [ids[i]];
    assert ids[..i + 1][..i] == ids[..i];
    assert Writes(ids[..i + 1], acked, i) <==> Writes(ids, acked, i);
    assert forall id :: id in AckSet(done) <==> id in done;
  }

  function AckNexts<P>(n: nat): seq<Label<P>> {
    seq(n, _ => AckNext)
  }

  // The state after the first ids have been gone through.
  function AckedUpTo<P>(s: St<P>, ids: seq<nat>, n: nat): St<P>
    requires n <= |ids|
  {
    var wrote := NewAcks(ids[..n], s.acked);
    WithAcks(s, wrote).(phase := Acking(ids[n..], |wrote|))
  }

  // The loop of Ack: each turn acknowledges one id, or skips one that is not pending.
  lemma {:induction false} AcksRun<P>(s: St<P>, ids: seq<nat>, n: nat)
    requires Inv(s) && Up(s) && s.phase.Idle? && n <= |ids|
    ensures var t := AckedUpTo(s, ids, n);
            && Exec(s.(phase := Acking(ids, 0)), AckNexts(n)) == Some(t)
            && Inv(t) && Up(t) && Log(t) == WithoutAll(Log(s), ids[..n])
  {
    hide Exec, Inv, Log, WithAcks, NewAcks;
    if n == 0 {
      AckStarts(s, ids);
    } else {
      AcksRun(s, ids, n - 1);
      var now := AckedUpTo(s, ids, n - 1);
      AckTurn(s.(phase := Acking(ids, 0)), AckNexts(n - 1), now);
      AckAdvances(s, ids, n - 1);
      assert AckNexts<P>(n - 1) + [AckNext] == AckNexts(n);
      WithoutNext(Log(s), ids, n - 1);
    }
  }

  lemma AckStarts<P>(s: St<P>, ids: seq<nat>)
    requires Inv(s) && Up(s) && s.phase.Idle?
    ensures var t := s.(phase := Acking(ids, 0));
            && AckedUpTo(s, ids, 0) == t && AckNexts<P>(0) == [] && Exec(t, []) == Some(t)
            && Inv(t) && Log(t) == WithoutAll(Log(s), ids[..0])
  {
    hide Tokens, Unacked, Increasing, Ids;
    NoAcks(s);
    assert ids[..0] == [] && ids[0..] == ids;
    WithoutNone(Log(s));
  }

  lemma AckAdvances<P>(s: St<P>, ids: seq<nat>, i: nat)
    requires i < |ids|
    ensures var now := AckedUpTo(s, ids, i);
            Enabled(now, AckNext) && Apply(now, AckNext) == AckedUpTo(s, ids, i + 1) && now.phase.todo[0] == ids[i]
  {
    hide WithAcks, NewAcks, AckSet, Tokens;
    NextAck(s, ids, s.acked, i);
    WithAcksAside(s, NewAcks(ids[..i], s.acked));
    WithAcksAside(s, NewAcks(ids[..i + 1], s.acked));
    assert ids[i..][1..] == ids[i + 1..];
  }

  lemma WithAcksAside<P>(s: St<P>, written: seq<nat>)
    ensures var t := WithAcks(s, written); t == s.(ack := t.ack, acked := t.acked, pendingCount := t.pendingCount)
  {
  }

  // One turn.
  lemma AckTurn<P>(s: St<P>, trace: seq<Label<P>>, now: St<P>)
    requires Exec(s, trace) == Some(now) && Enabled(now, AckNext) && Inv(now)
    ensures Exec(s, trace + [AckNext]) == Some(Apply(now, AckNext))
    ensures Inv(Apply(now, AckNext)) && Log(Apply(now, AckNext)) == Without(Log(now), now.phase.todo[0])
  {
    assert (trace + [AckNext])[..|trace|] == trace;
    AckNextStep(now);
    if !Fresh(now, now.phase.todo[0]) {
      SkippedNotPending(now, now.phase.todo[0]);
    }
  }

  lemma AckBegins<P>(s: St<P>, ids: seq<nat>)
    requires Enabled(s, AckBegin(ids)) && Inv(s)
    ensures var t := s.(phase := Acking(ids, 0)); Exec(s, [AckBegin(ids)]) == Some(t) && Inv(t) && Log(t) == Log(s)
  {
    var all: seq<Label<P>> := [AckBegin(ids)];
    assert all[..0] == [];
  }

  // The end of Ack without a compaction.
  lemma AckEnds<P>(s: St<P>, trace: seq<Label<P>>, now: St<P>, l: Label<P>)
    requires Exec(s, trace) == Some(now) && Enabled(now, l) && Inv(now)
    requires l.AckFail? || l.AckEnd? || l.AckSyncFail?
    ensures Exec(s, trace + [l]) == Some(Apply(now, l)) && Inv(Apply(now, l)) && Log(Apply(now, l)) == Log(now)
  {
    hide Unacked, Tokens, AckSet, Increasing, Ids;
    assert (trace + [l])[..|trace|] == trace;
  }

  // The end of Ack behind its loop.
  lemma AckEnded<P>(s: St<P>, trace: seq<Label<P>>, t: St<P>, wrote: nat, l: Label<P>)
    requires Exec(s, trace) == Some(t.(phase := Acking([], wrote))) && Inv(t.(phase := Acking([], wrote))) && Up(t)
    requires l.AckEnd? || (l.AckSyncFail? && wrote > 0)
    ensures var u := t.(acksSince := t.acksSince + wrote, phase := Idle);
            && Exec(s, trace + [l])
               == Some(if l.AckEnd? && Due(t.acksSince, wrote, l.elapsed) then u.(phase := Starting) else u)
            && Inv(u) && Log(u) == Log(t.(phase := Acking([], wrote)))
  {
    hide Exec, Inv, Log;
    var now := t.(phase := Acking([], wrote));
    AckEnds(s, trace, now, l);
    Released(Apply(now, l), Idle);
  }

  // The acknowledgement file cannot be opened.
  lemma AckRefused<P>(s: St<P>, ids: seq<nat>)
    requires Inv(s) && Up(s) && s.phase.Idle? && ids != []
    ensures Exec(s, [AckBegin(ids), AckFail]) == Some(s)
  {
    hide Exec, Inv, Log;
    AckBegins(s, ids);
    var first: seq<Label<P>> := [AckBegin(ids)];
    AckEnds(s, first, s.(phase := Acking(ids, 0)), AckFail);
    assert first + [AckFail] == [AckBegin(ids), AckFail];
  }

  class Journal<P> {
    const disk: Disk<P>
    const maxPending: int
    var acked: set<nat>
    var nextID: nat
    var pendingCount: int
    var acksSince: nat
    var writer: Writer
    ghost var stage: Stage
    ghost var clean: bool
    ghost var uncounted: int

    // The state of the transition system this object and its files are in.
    ghost function View(phase: Phase<P>): St<P>
      reads this, disk
    {
      St(disk.wal, disk.ack, maxPending, acked, nextID, pendingCount, acksSince, writer, phase, stage, clean, uncounted)
    }

    ghost predicate Valid()
      reads this, disk
    {
      Inv(View(Idle)) && Up(View(Idle))
    }

    ghost function Pending(): seq<Record<P>>
      reads this, disk
    {
      Log(View(Idle))
    }

    constructor (disk: Disk<P>, maxPending: int)
      ensures this.disk == disk && this.maxPending == maxPending
      ensures View(Idle) == NewProcess(disk.wal, disk.ack, maxPending)
    {
      this.disk, this.maxPending := disk, maxPending;
      acked, nextID, pendingCount, acksSince, writer := {}, 0, 0, 0, Closed;
      stage, clean, uncounted := Off, false, 0;
    }

    method LoadAcked(opens: bool) returns (ok: bool)
      requires acked == {}
      modifies this`acked
      ensures (ok <==> opens) && acked == if ok then AckSet(disk.ack) else {}
    {
      if !opens {
        return false;
      }
      var i := 0;
      while i < |disk.ack|
        invariant 0 <= i <= |disk.ack|
        invariant acked == AckSet(disk.ack[..i])
      {
        AckSetSnoc(disk.ack[..i], disk.ack[i]);
        assert disk.ack[..i + 1] == disk.ack[..i] + [disk.ack[i]];
        acked := acked + {disk.ack[i]};
        i := i + 1;
      }
      assert disk.ack[..i] == disk.ack;
      ok := true;
    }

    method ScanMaxID(opens: bool) returns (ok: bool)
      modifies this`nextID
      ensures ok <==> opens && Fits(Tokens(disk.wal), SCAN_LIMIT)
      ensures !opens ==> nextID == old(nextID)
      ensures ok ==> nextID == MaxId(Tokens(disk.wal), old(nextID))
      ensures old(nextID) <= nextID
      ensures (forall id | id in Ids(Tokens(disk.wal)) :: id <= old(nextID)) ==> nextID == old(nextID)
    {
      if !opens {
        return false;
      }
      var ts, i := Tokens(disk.wal), 0;
      while i < |ts|
        invariant 0 <= i <= |ts| && Fits(ts[..i], SCAN_LIMIT)
        invariant nextID == MaxId(ts[..i], old(nextID))
        invariant nextID == old(nextID) || nextID in Ids(ts)
      {
        if ts[i].size >= SCAN_LIMIT {
          return false;
        }
        assert ts[..i + 1][..i] == ts[..i];
        if ts[i].parsed.Some? && ts[i].parsed.value.id > nextID {
          nextID := ts[i].parsed.value.id;
        }
        i := i + 1;
      }
      assert ts[..i] == ts;
      return true;
    }

    method CountPendingOnDisk(opens: bool) returns (n: nat, ok: bool)
      ensures ok <==> opens && Fits(Tokens(disk.wal), SCAN_LIMIT)
      ensures ok ==> n == |Unacked(Tokens(disk.wal), acked)|
    {
      n := 0;
      if !opens {
        return n, false;
      }
      var ts, i := Tokens(disk.wal), 0;
      while i < |ts|
        invariant 0 <= i <= |ts| && Fits(ts[..i], SCAN_LIMIT)
        invariant n == |Unacked(ts[..i], acked)|
      {
        if ts[i].size >= SCAN_LIMIT {
          return n, false;
        }
        assert ts[..i + 1][..i] == ts[..i];
        if Live(ts[i], acked) {
          n := n + 1;
        }
        i := i + 1;
      }
      assert ts[..i] == ts;
      ok := true;
    }

    /**
     NewJournal: it opens exactly when every file can be opened and every line fits the scanner, and then knows what the
     files tell.
     */
    static method NewJournal(disk: Disk<P>, maxPending: int, io: OpenIo) returns (r: Result<Journal<P>, Error>)
      ensures r.Ok? <==> io == OpenIo(true, true, true, true, true, true) && Fits(Tokens(disk.wal), SCAN_LIMIT)
      ensures r.Ok? ==> fresh(r.value) && r.value.disk == disk
      ensures r.Ok? ==> r.value.View(Idle) == Apply(NewProcess(disk.wal, disk.ack, maxPending), Open)
    {
      if !io.dirOk {
        return Err(Io);
      }
      var j := new Journal<P>(disk, maxPending);
      var loaded := j.LoadAcked(io.ackOk);
      if !loaded || !io.walOk {
        return Err(Io);
      }
      var scanned := j.ScanMaxID(io.scanOk);
      if !scanned {
        return Err(Io);
      }
      j.writer := Ready;
      if !io.ackFileOk {
        return Err(Io);
      }
      var n, counted := j.CountPendingOnDisk(io.countOk);
      if !counted {
        return Err(Io);
      }
      j.pendingCount := n;
      j.stage := Opened;
      return Ok(j);
    }

    /**
     appendRecord. On success the record, under the next id, is pending after all others if the state was safe, and in
     any case the line is at the end of the file. A refused append changes nothing.
     */
    method Append(payload: P, size: Positive, io: AppendIo) returns (r: Result<nat, Error>, ghost trace: seq<Label<P>>)
      requires Valid() && stage.Serving?
      modifies this, disk
      ensures Exec(old(View(Idle)), trace) == Some(View(Idle))
      ensures trace == AppendTrace(old(maxPending > 0 && pendingCount >= maxPending), old(writer), payload, size, io)
      ensures r == Err(Backlog) <==> old(maxPending > 0 && pendingCount >= maxPending)
      ensures r == Err(Backlog) ==> View(Idle) == old(View(Idle))
      ensures r == Err(NilWriter) <==> old(writer).Closed? && r != Err(Backlog)
      ensures r == Err(NilWriter) ==> View(Idle) == old(View(Idle).(nextID := nextID + 1))
      ensures r.Ok? <==> !old(maxPending > 0 && pendingCount >= maxPending) && old(writer).Ready? && io.Whole?
      ensures r.Ok? ==> r.value == nextID == old(nextID) + 1 && uncounted == old(uncounted)
      ensures pendingCount == old(pendingCount) + (if r.Ok? then 1 else 0) && acksSince == old(acksSince)
      ensures r != Err(Backlog) && old(writer).Ready? ==>
                var line := Line(Some(Record(nextID, payload)), size);
                && nextID == old(nextID) + 1 && (writer.Ready? <==> !io.CutShort?)
                && disk.wal == (if io.CutShort? then WriteFragment(old(disk.wal), line, io.partly)
                                else WriteLine(old(disk.wal), line))
      ensures old(writer).Stuck? ==> writer.Stuck? && disk.wal == old(disk.wal)
      ensures old(SafeToAppend(View(Idle))) ==> Valid()
      ensures old(SafeToAppend(View(Idle))) && r.Ok? ==> Pending() == old(Pending()) + [Record(r.value, payload)]
      ensures old(SafeToAppend(View(Idle))) && r.Err? ==>
                Pending() == old(Pending()) || Pending() == old(Pending()) + [Record(nextID, payload)]
      ensures disk.ack == old(disk.ack) && acked == old(acked) && stage == old(stage) && clean == old(clean)
    {
      hide Exec, Inv, Log, WriteLine, SafeToAppend;
      ghost var s := View(Idle);
      trace := [];
      if maxPending > 0 && pendingCount >= maxPending {
        ExecNil(s);
        return Err(Backlog), trace;
      }
      nextID := nextID + 1;
      var line := Line(Some(Record(nextID, payload)), size);
      if !writer.Ready? || io.CutShort? {
        ghost var partly := if writer.Ready? then io.partly else Nothing;
        if writer.Ready? {
          disk.wal := WriteFragment(disk.wal, line, io.partly);
          writer := Stuck;
        }
        uncounted := uncounted + (if partly.AllButNewline? then 1 else 0);
        AppendUnwritten(s, payload, size, partly);
        return Err(if writer.Closed? then NilWriter else Io), [AppendBegin(payload, size), WriteFail(partly)];
      }
      disk.wal := WriteLine(disk.wal, line);
      if io.NoSync? {
        uncounted := uncounted + 1;
        AppendWritten(s, payload, size, false);
        return Err(Io), [AppendBegin(payload, size), Write, SyncFail];
      }
      pendingCount := pendingCount + 1;
      AppendWritten(s, payload, size, true);
      return Ok(nextID), [AppendBegin(payload, size), Write, Return];
    }

    method ScanPending(opens: bool) returns (kept: seq<Line<P>>, ok: bool)
      ensures ok <==> opens && Fits(Tokens(disk.wal), REPLAY_LIMIT)
      ensures ok ==> kept == Keep(Tokens(disk.wal), acked)
    {
      kept := [];
      if !opens {
        return kept, false;
      }
      hide Keep, Live, Unacked, Fits, Tokens;
      var ts, i := Tokens(disk.wal), 0;
      ScanNone(ts, acked, REPLAY_LIMIT);
      while i < |ts|
        invariant 0 <= i <= |ts| && Fits(ts[..i], REPLAY_LIMIT)
        invariant kept == Keep(ts[..i], acked)
      {
        if ts[i].size >= REPLAY_LIMIT {
          TooLong(ts, i, REPLAY_LIMIT);
          return kept, false;
        }
        ScanNext(ts, i, acked, REPLAY_LIMIT);
        if Live(ts[i], acked) {
          kept := kept + [ts[i]];
        }
        i := i + 1;
      }
      assert ts[..i] == ts;
      ok := true;
    }

    // compactLocked up to the reopening of the WAL; done is the number of its actions that took place.
    method RewriteWal(fault: Fault) returns (kept: seq<Line<P>>, ok: bool, ghost done: nat)
      requires Valid()
      modifies this, disk
      ensures done <= 4 && CompactAllowed(old(View(Starting)), done) && (ok <==> done == 4)
      ensures View(Idle) == CompactAt(old(View(Starting)), done).(phase := Idle)
      ensures var k := Reaches(old(View(Starting)), fault); done == if k < 4 then k else 4
      ensures ok ==> kept == Keep(old(Tokens(disk.wal)), old(acked)) && CompactAllowed(old(View(Starting)), 8)
      ensures ok <==> !fault.AtTmp? && !fault.AtTmpClose? && !fault.AtRename? && !fault.AtReopen?
                      && CompactAllowed(old(View(Starting)), 8)
    {
      hide Inv, Exec, Fits, Keep, MaxId, Unacked;
      KeptBelow(View(Idle));
      kept := [];
      if writer.Stuck? {
        return kept, false, 0;
      }
      kept, ok := ScanPending(!fault.AtTmp?);
      if !ok {
        return kept, false, 0;
      }
      if fault.AtTmpClose? {
        return kept, false, 1;
      }
      writer := Closed;
      if fault.AtRename? {
        return kept, false, 2;
      }
      disk.wal := File(kept, None);
      assert Tokens(disk.wal) == kept;
      ok := ScanMaxID(!fault.AtReopen?);
      done := if ok then 4 else 3;
    }

    // resetAckFileLocked, the last actions of a compaction.
    method ResetAckFile(fault: Fault) returns (ok: bool, ghost done: nat)
      modifies this`clean, disk`ack
      ensures done == (if fault.AtAckClose? then 5 else if fault.AtAckEmpty? then 6
                       else if fault.AtAckOpen? then 7 else 8)
      ensures ok <==> done == 8
      ensures disk.ack == (if done >= 7 then [] else old(disk.ack)) && clean == (done >= 7 || old(clean))
    {
      if fault.AtAckClose? {
        return false, 5;
      }
      if fault.AtAckEmpty? {
        return false, 6;
      }
      disk.ack, clean := [], true;
      ok := !fault.AtAckOpen?;
      done := if ok then 8 else 7;
    }

    /**
     compactLocked: whatever fails in it, the pending records stay as they are; when nothing fails the WAL holds them
     and nothing else, and the acknowledgement file is empty.
     */
    method CompactLocked(fault: Fault) returns (err: Option<Error>, ghost trace: seq<Label<P>>)
      requires Valid()
      modifies this, disk
      ensures Valid() && Pending() == old(Pending())
      ensures Exec(old(View(Starting)), trace) == Some(View(Idle))
      ensures err.None? <==> fault.NoFault? && Reaches(old(View(Starting)), NoFault) == 8
      ensures View(Idle) == Compacted(old(View(Starting)), fault)
      ensures trace == CompactTrace(Reaches(old(View(Starting)), fault))
      ensures stage == old(stage) && nextID >= old(nextID)
    {
      hide Exec, Enabled, Apply, Log, LogStep, Inv, Keep, MaxId, Fits, CompactAt, CompactAllowed;
      ghost var s, steps := View(Starting), CompactSteps<P>();
      assert steps[..8] + [] == steps[..8];
      AfterFour(s);
      Released(View(Idle), Starting);
      var kept, ok;
      ghost var done;
      kept, ok, done := RewriteWal(fault);
      if !ok {
        CompactStopped(s, done);
        return Some(Io), steps[..done] + [Abort];
      }
      writer, acked, pendingCount, acksSince, uncounted := Ready, {}, |kept|, 0, 0;
      ok, done := ResetAckFile(fault);
      if !ok {
        CompactStopped(s, done);
        return Some(Io), steps[..done] + [Abort];
      }
      CompactRuns(s, 8);
      return if fault.AtSync? then Some(Io) else None, steps[..8];
    }

    // Compact, as the start-up calls it.
    method Compact(fault: Fault) returns (err: Option<Error>, ghost trace: seq<Label<P>>)
      requires Valid()
      modifies this, disk
      ensures Valid() && Pending() == old(Pending())
      ensures Exec(old(View(Idle)), trace) == Some(View(Idle))
      ensures err.None? <==> fault.NoFault? && Reaches(old(View(Starting)), NoFault) == 8
      ensures View(Idle) == Compacted(old(View(Starting)), fault)
      ensures trace == [CompactBegin] + CompactTrace(Reaches(old(View(Starting)), fault))
      ensures err.None? ==> clean && disk.ack == [] && disk.wal.tail.None? && |disk.wal.lines| == |Pending()|
    {
      hide CompactTrace, Reaches, CompactAt;
      ghost var s := View(Idle);
      ghost var first: seq<Label<P>> := [CompactBegin];
      Step(s, [], s, CompactBegin);
      assert [] + first == first;
      CompactedShape(View(Starting));
      err, trace := CompactLocked(fault);
      ExecConcat(s, first, trace);
      trace := first + trace;
    }

    // ReplayUnacked: what the callback is given is the pending records, in order, up to a line that is too long.
    method ReplayUnacked(opens: bool) returns (replayed: seq<Record<P>>, ok: bool)
      requires Valid() && stage.Opened?
      modifies this`stage
      ensures Valid() && (ok <==> opens && Enabled(old(View(Idle)), Replay))
      ensures ok <==> opens && !writer.Stuck?
                      && forall i | 0 <= i < |Tokens(disk.wal)| :: Tokens(disk.wal)[i].size < 1048576
      ensures ok ==> replayed == Pending() == old(Pending()) && View(Idle) == Apply(old(View(Idle)), Replay)
      ensures !ok ==> View(Idle) == old(View(Idle))
      ensures writer.Stuck? || !opens ==> replayed == []
      ensures !writer.Stuck? && opens ==>
                forall k | 0 <= k < |Tokens(disk.wal)| && Fits(Tokens(disk.wal)[..k], REPLAY_LIMIT)
                           && Tokens(disk.wal)[k].size >= REPLAY_LIMIT ::
                  replayed == Unacked(Tokens(disk.wal)[..k], acked)
    {
      replayed := [];
      if writer.Stuck? || !opens {
        return replayed, false;
      }
      var ts, i := Tokens(disk.wal), 0;
      while i < |ts|
        invariant 0 <= i <= |ts| && Fits(ts[..i], REPLAY_LIMIT)
        invariant replayed == Unacked(ts[..i], acked)
      {
        if ts[i].size >= REPLAY_LIMIT {
          FirstLong(ts, i, REPLAY_LIMIT);
          return replayed, false;
        }
        assert ts[..i + 1][..i] == ts[..i];
        if Live(ts[i], acked) {
          replayed := replayed + [ts[i].parsed.value];
        }
        i := i + 1;
      }
      assert ts[..i] == ts;
      ReplayIsLog(View(Idle));
      stage := Replayed;
      ok := true;
    }

    /**
     Ack: on success exactly the given ids leave the pending records, whether or not a compaction follows; on an error a
     prefix of them has left.
     */
    method Ack(ids: seq<nat>, io: AckIo) returns (err: Option<Error>, ghost trace: seq<Label<P>>)
      requires Valid()
      modifies this, disk
      ensures Valid() && stage == old(stage) && nextID >= old(nextID)
      ensures Exec(old(View(Idle)), trace) == Some(View(Idle))
      ensures View(Idle) == AfterAck(old(View(Idle)), ids, io)
      ensures err.None? <==> AckSucceeds(old(View(Idle)), ids, io)
      ensures err.None? ==> forall l | l in trace :: !IoError(l)
      ensures err.None? ==> Pending() == WithoutAll(old(Pending()), ids)
      ensures Pending()
           == if io.opens then WithoutAll(old(Pending()), ids[..Until(ids, old(acked), io.failAt)]) else old(Pending())
    {
      hide Exec, Inv, Log, EventOf, LogStep, CompactAt, CompactAllowed, WithoutAll, Reaches, CompactTrace, NewAcks;
      hide Writes, WithAcks, Enabled, Apply, Compacted, Until;
      ghost var s := View(Idle);
      trace := [];
      if ids == [] {
        ExecNil(s);
        WithoutNone(Log(s));
        assert ids[..0] == ids;
        return None, trace;
      }
      AckBegins(s, ids);
      ghost var first: seq<Label<P>> := [AckBegin(ids)];
      if !io.opens {
        AckRefused(s, ids);
        return Some(Io), [AckBegin(ids), AckFail];
      }
      var wrote, ok;
      wrote, ok, trace := AckLoop(ids, io.failAt);
      ExecConcat(s, first, trace);
      trace := first + trace;
      if !ok {
        return Some(Io), trace;
      }
      assert ids[..|ids|] == ids;
      ghost var looped := View(Idle);
      acksSince := acksSince + wrote;
      if wrote > 0 && io.syncFails {
        AckEnded(s, trace, looped, wrote, AckSyncFail);
        return Some(Io), trace + [AckSyncFail];
      }
      AckEnded(s, trace, looped, wrote, AckEnd(io.elapsed));
      trace := trace + [AckEnd(io.elapsed)];
      err := None;
      if wrote > 0 {
        ghost var rest;
        err, rest := MaybeCompactLocked(io.elapsed, io.fault);
        ExecConcat(s, trace, rest);
        assert trace + [] == trace;
        trace := trace + rest;
      }
    }

    // maybeCompactLocked.
    method MaybeCompactLocked(elapsed: bool, fault: Fault) returns (err: Option<Error>, ghost trace: seq<Label<P>>)
      requires Valid()
      modifies this, disk
      ensures Valid() && Pending() == old(Pending())
      ensures var due := old(acksSince) > 0 && (old(acksSince) >= 100 || elapsed);
              && Exec(old(View(if due then Starting else Idle)), trace) == Some(View(Idle))
              && View(Idle) == (if due then Compacted(old(View(Starting)), fault) else old(View(Idle)))
              && (err.None? <==> (due ==> fault.NoFault? && Reaches(old(View(Starting)), NoFault) == 8))
              && (err.None? ==> forall l | l in trace :: !IoError(l))
      ensures stage == old(stage) && nextID >= old(nextID)
    {
      hide Exec, Inv, Log, CompactAt, CompactAllowed, CompactTrace, Reaches;
      ExecNil(View(Idle));
      if acksSince == 0 || (acksSince < MIN_ACKS && !elapsed) {
        return None, [];
      }
      WholeTrace<P>();
      err, trace := CompactLocked(fault);
    }

    // The loop of Ack: it ends, or stops at the line that cannot be written.
    method AckLoop(ids: seq<nat>, failAt: Option<nat>) returns (wrote: nat, ok: bool, ghost trace: seq<Label<P>>)
      requires Valid()
      modifies this`acked, this`pendingCount, disk`ack
      ensures Valid() && (ok <==> Until(ids, old(acked), failAt) == |ids|)
      ensures var n := Until(ids, old(acked), failAt);
              && View(Idle) == WithAcks(old(View(Idle)), NewAcks(ids[..n], old(acked)))
              && wrote == |NewAcks(ids[..n], old(acked))|
              && Pending() == WithoutAll(old(Pending()), ids[..n])
              && trace == AckNexts(n) + (if ok then [] else [AckFail])
      ensures Exec(old(View(Acking(ids, 0))), trace) == Some(View(if ok then Acking([], wrote) else Idle))
      ensures ok ==> Inv(View(Acking([], wrote))) && Log(View(Acking([], wrote))) == Pending()
    {
      hide Exec, Inv, Log, NewAcks, WithAcks, Writes, WithoutAll;
      var i := 0;
      wrote, ok := 0, true;
      ghost var was := View(Idle);
      NoAcks(was);
      while i < |ids|
        invariant 0 <= i <= |ids|
        invariant View(Idle) == WithAcks(was, NewAcks(ids[..i], old(acked)))
        invariant wrote == |NewAcks(ids[..i], old(acked))|
        invariant forall k | 0 <= k < i && failAt == Some(k) :: !Writes(ids, old(acked), k)
      {
        var id := ids[i];
        NextAck(was, ids, old(acked), i);
        if id != 0 && id !in acked {
          if failAt == Some(i) {
            ok := false;
            break;
          }
          disk.ack := disk.ack + [id];
          acked, pendingCount, wrote := acked + {id}, pendingCount - 1, wrote + 1;
        }
        i := i + 1;
      }
      trace := AckNexts(i);
      AcksRun(was, ids, i);
      assert ok ==> ids[i..] == [];
      Released(View(Acking(ids[i..], wrote)), Idle);
      assert AckNexts<P>(i) + [] == AckNexts(i);
      if !ok {
        AckEnds(was.(phase := Acking(ids, 0)), trace, View(Acking(ids[i..], wrote)), AckFail);
        trace := trace + [AckFail];
      }
    }
  }
}
