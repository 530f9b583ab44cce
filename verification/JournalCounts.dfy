/** The journal's counter, the size of its log, and the inputs on which its promises fail. */
module JournalCounts {
  import opened Options
  import opened Wal
  import opened JournalMachine
  import opened JournalSafety

  // ---------------------------------------------------------------- pendingCount

  // pendingCount is the number of pending records, but for those that a failed append left in the file.
  ghost predicate Counted<P>(s: St<P>) {
    Up(s) ==>
      && s.pendingCount + s.uncounted + (if s.phase.Written? then 1 else 0) == |Log(s)|
      && (s.phase.Staged? || s.phase.Detached? || s.phase.Renamed? || s.phase.Reopened? ==> |s.phase.kept| == |Log(s)|)
  }

  // Acknowledging: the id on its way to the file is pending.
  ghost predicate AcksPending<P>(s: St<P>, l: Label<P>) {
    l.AckNext? && s.phase.Acking? && s.phase.todo != [] && Fresh(s, s.phase.todo[0]) ==>
      s.phase.todo[0] in LogIds(Log(s))
  }

  /**
   The counter is right after an acknowledgement if and only if the id acknowledged was pending. An id acknowledged
   twice, with a compaction in between, is the case where it is not.
   */
  lemma AckCountsExactly<P>(s: St<P>)
    requires Inv(s) && Counted(s) && Enabled(s, AckNext)
    ensures Counted(Apply(s, AckNext)) <==> AcksPending(s, AckNext)
  {
    if Fresh(s, s.phase.todo[0]) {
      AckNextStep(s);
      UnackedDistinct(Tokens(s.wal), AckSet(s.ack));
      WithoutLength(Log(s), s.phase.todo[0]);
    }
  }

  lemma CountStep<P>(s: St<P>, l: Label<P>)
    requires Inv(s) && Counted(s) && Enabled(s, l) && Careful(s, l) && AcksPending(s, l)
    ensures Counted(Apply(s, l))
  {
    hide Counted, Apply, EventOf, LogStep, Log, UpInv, Increasing;
    match l {
      case AckNext => AckCountsExactly(s);
      case Scan => CountScan(s);
      case Open => CountOpen(s);
      case _ =>
        StepRefines(s, l);
        WritesRecord(s);
        CountOther(s, l);
    }
  }

  lemma CountOpen<P>(s: St<P>)
    requires Inv(s) && Enabled(s, Open)
    ensures Counted(Apply(s, Open))
  {
    hide Unacked, Tokens, AckSet;
  }

  lemma CountScan<P>(s: St<P>)
    requires Inv(s) && Counted(s) && Enabled(s, Scan)
    ensures Counted(Apply(s, Scan))
  {
    hide Unacked, Keep, AckSet;
    UnackedMember(Tokens(s.wal), s.acked);
    ReplayIsLog(s);
  }

  lemma WritesRecord<P>(s: St<P>)
    requires Inv(s)
    ensures s.phase.Writing? ==> s.phase.line.parsed.Some?
  {
  }

  lemma CountOther<P>(s: St<P>, l: Label<P>)
    requires Counted(s) && Enabled(s, l) && !l.AckNext? && !l.Scan? && !l.Open?
    requires Log(Apply(s, l)) == LogStep(Log(s), EventOf(s, l))
    requires s.phase.Writing? ==> s.phase.line.parsed.Some?
    ensures Counted(Apply(s, l))
  {
    hide Log, Tokens, AckSet, Keep, Fits, WriteLine, WriteFragment;
  }

  /**
   From the start of a process on, whatever happened before: in a run of safe appends the counter is exact as long as
   only pending ids are acknowledged, and it is never negative as long as no append fails.
   */
  lemma {:induction false} RunCounted<P(!new)>(
      states: seq<St<P>>, labels: seq<Label<P>>, maxPending: int, m: nat, n: nat)
    requires SafeRun(states, labels, maxPending) && m < n <= |labels| && labels[m].Open?
    requires forall i | m <= i < n :: AcksPending(states[i], labels[i])
    ensures Counted(states[n])
    ensures (forall i | m <= i < n :: !labels[i].SyncFail? && !labels[i].WriteFail?) ==>
              states[n].uncounted == 0 && states[n].pendingCount >= 0
  {
    hide Counted, Inv, Enabled, Careful, AcksPending;
    var s, l := states[n - 1], labels[n - 1];
    RunKeeps(states, labels, maxPending, n - 1);
    RunKeeps(states, labels, maxPending, n);
    assert Enabled(s, l) && Careful(s, l) && states[n] == Apply(s, l);
    hide SafeRun;
    if m == n - 1 {
      CountOpen(s);
    } else {
      hide Apply;
      RunCounted(states, labels, maxPending, m, n - 1);
      CountStep(s, l);
      if s.uncounted == 0 && !l.SyncFail? && !l.WriteFail? {
        CountIsNat(s, l);
      }
    }
  }

  lemma CountIsNat<P>(s: St<P>, l: Label<P>)
    requires Enabled(s, l) && s.uncounted == 0 && !l.SyncFail? && !l.WriteFail?
    requires Inv(s) && Inv(Apply(s, l)) && Counted(Apply(s, l))
    ensures Apply(s, l).uncounted == 0 && Apply(s, l).pendingCount >= 0
  {
    var t := Apply(s, l);
    if t.phase.Written? {
      LastIsLogged(t);
    }
    hide Log, Tokens, UpInv, Increasing, Ids;
  }

  lemma LastIsLogged<P>(t: St<P>)
    requires Inv(t) && t.phase.Written?
    ensures |Log(t)| >= 1 && Up(t)
  {
    var ts := Tokens(t.wal);
    assert Holds(ts, AckSet(t.ack), t.phase.line.parsed.value);
    UnackedMember(ts, AckSet(t.ack));
  }

  // ---------------------------------------------------------------- the log stays short

  predicate IoError<P>(l: Label<P>) {
    l.WriteFail? || l.SyncFail? || l.AckFail? || l.AckSyncFail? || l.Abort?
  }

  function Wrote<P>(s: St<P>): nat {
    if s.phase.Acking? then s.phase.wrote else 0
  }

  predicate Renaming<P>(p: Phase<P>) {
    p.Renamed? || p.Reopened?
  }

  predicate Emptying<P>(p: Phase<P>) {
    p.Cleared? || p.AckClosed? || p.AckEmptied?
  }

  // With n records pending: once a compaction has reset the counters, the lines of the WAL are the pending records and
  // the acknowledged ones still waiting for the next compaction, fewer than MIN_ACKS of them between operations.
  predicate BoundedBy<P>(s: St<P>, n: nat) {
    && (Renaming(s.phase) ==> |s.wal.lines| == n && s.wal.tail.None?)
    && (Emptying(s.phase) || (s.clean && !Renaming(s.phase)) ==>
          |s.wal.lines| == n + s.acksSince + Wrote(s) && s.wal.tail.None?)
    && (s.clean && !Compacting(s.phase) ==> s.acksSince < MIN_ACKS)
    && (Emptying(s.phase) ==> s.acksSince == 0)
  }

  ghost predicate Bounded<P>(s: St<P>) {
    BoundedBy(s, |Log(s)|)
  }

  lemma LogLength<P>(s: St<P>, l: Label<P>)
    requires Inv(s) && Enabled(s, l) && Careful(s, l) && AcksPending(s, l)
    ensures |Log(Apply(s, l))|
         == match EventOf(s, l) case Silent => |Log(s)| case Logged(_) => |Log(s)| + 1 case Acked(_) => |Log(s)| - 1
  {
    StepRefines(s, l);
    if EventOf(s, l).Acked? {
      UnackedDistinct(Tokens(s.wal), AckSet(s.ack));
      WithoutLength(Log(s), s.phase.todo[0]);
    }
  }

  lemma RenamedLength<P>(s: St<P>)
    requires Inv(s) && s.phase.Detached?
    ensures |s.phase.kept| == |Log(s)|
  {
    UnackedMember(Tokens(s.wal), s.acked);
    ReplayIsLog(s);
  }

  lemma BoundNumbers<P>(s: St<P>, l: Label<P>, n: nat, n': nat)
    requires Enabled(s, l) && BoundedBy(s, n) && !IoError(l) && (s.clean ==> Up(s))
    requires l.Write? ==> s.wal.tail.None? && s.phase.line.parsed.Some?
    requires l.Rename? ==> |s.phase.kept| == n
    requires n' == match EventOf(s, l) case Silent => n case Logged(_) => n + 1 case Acked(_) => n - 1
    ensures BoundedBy(Apply(s, l), n')
  {
  }

  lemma BoundStep<P>(s: St<P>, l: Label<P>)
    requires Inv(s) && CleanInv(s) && Bounded(s) && Enabled(s, l) && Careful(s, l) && AcksPending(s, l) && !IoError(l)
    ensures Bounded(Apply(s, l))
  {
    LogLength(s, l);
    if l.Rename? {
      RenamedLength(s);
    }
    BoundNumbers(s, l, |Log(s)|, |Log(Apply(s, l))|);
  }

  // What the bound says when the lock is free.
  lemma BoundMeaning<P>(s: St<P>)
    requires Bounded(s) && s.clean && s.phase.Idle?
    ensures |Tokens(s.wal)| <= |Log(s)| + MIN_ACKS - 1
  {
  }

  /**
   From the start of a process on, without I/O errors since, the WAL holds at most MIN_ACKS - 1 lines more than the
   pending records, whenever the lock is free in a process that has compacted once. What went wrong in earlier
   processes does not matter.
   */
  lemma {:induction false} LogBound<P(!new)>(
      states: seq<St<P>>, labels: seq<Label<P>>, maxPending: int, m: nat, n: nat)
    requires CompactedRun(states, labels, maxPending) && m < n <= |labels| && labels[m].Open?
    requires forall i | m <= i < n :: AcksPending(states[i], labels[i]) && !IoError(labels[i])
    ensures Bounded(states[n])
    ensures states[n].clean && states[n].phase.Idle? ==> |Tokens(states[n].wal)| <= |Log(states[n])| + MIN_ACKS - 1
  {
    CompactedKeeps(states, labels, maxPending, n - 1);
    if m == n - 1 {
      assert states[m].phase.Idle? && states[n] == Apply(states[m], Open);
    } else {
      LogBound(states, labels, maxPending, m, n - 1);
      hide Inv, Log, Counted, Bounded, Apply, Enabled, AcksPending, Careful, CleanInv;
      BoundStep(states[n - 1], labels[n - 1]);
    }
    if states[n].clean && states[n].phase.Idle? {
      BoundMeaning(states[n]);
    }
  }

  function Max(a: int, b: int): int {
    if a < b then b else a
  }

  // Room is left for the append under way.
  predicate Capped<P>(s: St<P>, bound: int) {
    s.pendingCount <= bound && (s.phase.Writing? || s.phase.Written? ==> s.pendingCount < bound)
  }

  lemma CappedStep<P>(s: St<P>, l: Label<P>, bound: int)
    requires Enabled(s, l) && Up(s) && Counted(s) && s.uncounted == 0 && Capped(s, bound)
    requires 0 < s.maxPending <= bound && !IoError(l) && !l.Crash?
    ensures Capped(Apply(s, l), bound) && Up(Apply(s, l))
  {
  }

  lemma CappedNext<P(!new)>(states: seq<St<P>>, labels: seq<Label<P>>, maxPending: int, bound: int, k: nat)
    requires SafeRun(states, labels, maxPending) && k < |labels|
    requires Counted(states[k]) && states[k].uncounted == 0 && Up(states[k]) && Capped(states[k], bound)
    requires 0 < states[k].maxPending <= bound && !IoError(labels[k]) && !labels[k].Crash?
    ensures Capped(states[k + 1], bound) && Up(states[k + 1])
  {
    hide Capped, Counted, Enabled, Apply, Up;
    CappedStep(states[k], labels[k], bound);
  }

  /**
   The backlog limit holds: a process without I/O errors never counts more pending records than it started with or than
   the limit.
   */
  lemma {:induction false} BacklogCapped<P(!new)>(
      states: seq<St<P>>, labels: seq<Label<P>>, maxPending: int, m: nat, n: nat)
    requires SafeRun(states, labels, maxPending) && maxPending > 0 && m < n <= |labels| && labels[m].Open?
    requires forall i | m <= i < n :: AcksPending(states[i], labels[i]) && !IoError(labels[i]) && !labels[i].Crash?
    ensures Capped(states[n], Max(maxPending, states[m + 1].pendingCount)) && Up(states[n])
  {
    assert |states| == |labels| + 1;
    hide Capped, Counted, Enabled, Apply, Up, AcksPending, SafeRun;
    if m + 1 == n {
      CappedAtOpen(states, labels, maxPending, m);
    } else {
      RunCounted(states, labels, maxPending, m, n - 1);
      SameLimit(states, labels, maxPending, n - 1);
      BacklogCapped(states, labels, maxPending, m, n - 1);
      CappedNext(states, labels, maxPending, Max(maxPending, states[m + 1].pendingCount), n - 1);
    }
  }

  lemma CappedAtOpen<P(!new)>(states: seq<St<P>>, labels: seq<Label<P>>, maxPending: int, m: nat)
    requires SafeRun(states, labels, maxPending) && m < |labels| && labels[m].Open?
    ensures Capped(states[m + 1], Max(maxPending, states[m + 1].pendingCount)) && Up(states[m + 1])
  {
    RunKeeps(states, labels, maxPending, m);
    hide Log, Unacked, Tokens;
  }

  lemma {:induction false} SameLimit<P(!new)>(states: seq<St<P>>, labels: seq<Label<P>>, maxPending: int, n: nat)
    requires SafeRun(states, labels, maxPending) && n <= |labels|
    ensures states[n].maxPending == maxPending
  {
    if n > 0 {
      SameLimit(states, labels, maxPending, n - 1);
    }
  }

  // ---------------------------------------------------------------- executions

  function Next<P>(before: Option<St<P>>, l: Label<P>): Option<St<P>> {
    if before.Some? && Enabled(before.value, l) then Some(Apply(before.value, l)) else None
  }

  // The state a list of labels leads to, if every one of them is enabled.
  function Exec<P>(s: St<P>, labels: seq<Label<P>>): Option<St<P>> {
    if labels == [] then Some(s) else Next(Exec(s, labels[..|labels| - 1]), labels[|labels| - 1])
  }

  lemma ExecNil<P>(s: St<P>)
    ensures Exec(s, []) == Some(s)
  {
  }

  lemma ExecNext<P>(s: St<P>, all: seq<Label<P>>, k: nat, t: St<P>)
    requires k < |all| && Exec(s, all[..k]) == Some(t) && Enabled(t, all[k])
    ensures Exec(s, all[..k + 1]) == Some(Apply(t, all[k]))
  {
    assert all[..k + 1][..k] == all[..k];
  }

  lemma {:induction false} ExecConcat<P>(s: St<P>, a: seq<Label<P>>, b: seq<Label<P>>)
    requires Exec(s, a).Some?
    ensures Exec(s, a + b) == Exec(Exec(s, a).value, b)
  {
    if b == [] {
      assert a + b == a;
    } else {
      ExecConcat(s, a, b[..|b| - 1]);
      assert (a + b)[..|a + b| - 1] == a + b[..|b| - 1];
    }
  }

  // An execution that starts on empty files is a run.
  lemma {:induction false} ExecIsRun<P(!new)>(s: St<P>, labels: seq<Label<P>>) returns (states: seq<St<P>>)
    requires Exec(s, labels).Some?
    ensures IsRun(states, labels) && states[0] == s && states[|labels|] == Exec(s, labels).value
    ensures forall i | 0 <= i <= |labels| :: Exec(s, labels[..i]) == Some(states[i])
  {
    hide Exec, IsRun;
    if labels == [] {
      states := [s];
      EmptyRun(s);
    } else {
      ExecLast(s, labels);
      var before := ExecIsRun(s, labels[..|labels| - 1]);
      RunGrows(s, labels, before);
      PrefixStates(s, labels, before, Exec(s, labels).value);
      states := before + [Exec(s, labels).value];
    }
  }

  lemma EmptyRun<P(!new)>(s: St<P>)
    ensures Exec(s, []) == Some(s) && IsRun([s], []) && forall labels: seq<Label<P>> | labels == [] :: labels[..0] == []
  {
  }

  lemma ExecLast<P>(s: St<P>, labels: seq<Label<P>>)
    requires labels != [] && Exec(s, labels).Some?
    ensures var b, l := Exec(s, labels[..|labels| - 1]), labels[|labels| - 1];
            b.Some? && Enabled(b.value, l) && Exec(s, labels) == Some(Apply(b.value, l))
  {
    hide Enabled, Apply;
  }

  lemma RunGrows<P(!new)>(s: St<P>, labels: seq<Label<P>>, before: seq<St<P>>)
    requires labels != [] && Exec(s, labels).Some? && IsRun(before, labels[..|labels| - 1])
    requires before[0] == s && Some(before[|labels| - 1]) == Exec(s, labels[..|labels| - 1])
    ensures IsRun(before + [Exec(s, labels).value], labels) && |before| == |labels|
  {
    hide Exec, Enabled, Apply;
    ExecLast(s, labels);
    RunSnoc(before, labels[..|labels| - 1], labels[|labels| - 1]);
    assert labels == labels[..|labels| - 1] + [labels[|labels| - 1]];
  }

  lemma PrefixStates<P(!new)>(s: St<P>, labels: seq<Label<P>>, before: seq<St<P>>, last: St<P>)
    requires labels != [] && |before| == |labels| && Exec(s, labels) == Some(last)
    requires forall i | 0 <= i < |labels| :: Exec(s, labels[..|labels| - 1][..i]) == Some(before[i])
    ensures forall i | 0 <= i <= |labels| :: Exec(s, labels[..i]) == Some((before + [last])[i])
  {
    hide Exec;
    forall i | 0 <= i <= |labels| ensures Exec(s, labels[..i]) == Some((before + [last])[i]) {
      if i < |labels| {
        assert labels[..|labels| - 1][..i] == labels[..i];
      } else {
        assert labels[..i] == labels;
      }
    }
  }

  lemma RunSnoc<P(!new)>(states: seq<St<P>>, labels: seq<Label<P>>, l: Label<P>)
    requires IsRun(states, labels) && Enabled(states[|labels|], l)
    ensures IsRun(states + [Apply(states[|labels|], l)], labels + [l])
  {
    hide Enabled, Apply;
  }

  function CompactSteps<P>(): seq<Label<P>> {
    [Scan, Detach, Rename, Reopen, Clear, CloseAck, EmptyAck, OpenAck]
  }

  // The state after the first k actions of a compaction entered in s.
  function CompactAt<P>(s: St<P>, k: nat): St<P>
    requires k <= 8
  {
    var kept := Keep(Tokens(s.wal), s.acked);
    if k == 0 then s
    else if k == 1 then s.(phase := Staged(kept))
    else if k == 2 then s.(writer := Closed, phase := Detached(kept))
    else if k == 3 then s.(writer := Closed, wal := File(kept, None), phase := Renamed(kept))
    else
      var r := s.(writer := Closed, wal := File(kept, None), nextID := MaxId(kept, s.nextID), phase := Reopened(kept));
      if k == 4 then r
      else
        var c := r.(writer := Ready, acked := {}, pendingCount := |kept|, acksSince := 0, uncounted := 0);
        if k == 5 then c.(phase := Cleared)
        else if k == 6 then c.(phase := AckClosed)
        else c.(ack := [], clean := true, phase := if k == 7 then AckEmptied else Idle)
  }

  // Its k-th action meets no obstacle: the writer is usable and the lines fit the scanner it uses.
  predicate CompactAllowed<P>(s: St<P>, k: nat) {
    && s.phase.Starting?
    && (k > 0 ==> !s.writer.Stuck? && Fits(Tokens(s.wal), REPLAY_LIMIT))
    && (k > 3 ==> Fits(Keep(Tokens(s.wal), s.acked), SCAN_LIMIT))
  }

  lemma CompactNext<P>(s: St<P>, k: nat)
    requires k < 8 && CompactAllowed(s, k + 1)
    ensures Enabled(CompactAt(s, k), CompactSteps()[k])
    ensures Apply(CompactAt(s, k), CompactSteps()[k]) == CompactAt(s, k + 1)
  {
    if k == 3 {
      assert Tokens(CompactAt(s, 3).wal) == CompactAt(s, 3).phase.kept;
    }
  }

  /**
   A compaction is invisible: after any number of its actions, which is where a crash or an I/O error can stop it, the
   two files tell the same pending records as before.
   */
  lemma {:induction false} CompactRuns<P>(s: St<P>, k: nat)
    requires k <= 8 && CompactAllowed(s, k)
    ensures Exec(s, CompactSteps()[..k]) == Some(CompactAt(s, k))
    ensures Inv(s) ==> Inv(CompactAt(s, k)) && Log(CompactAt(s, k)) == Log(s)
  {
    if k > 0 {
      CompactRuns(s, k - 1);
      CompactNext(s, k - 1);
      ExecNext(s, CompactSteps(), k - 1, CompactAt(s, k - 1));
      if Inv(s) {
        StepRefines(CompactAt(s, k - 1), CompactSteps()[k - 1]);
      }
    }
  }

  // A compaction that meets no error, taken as a whole.
  lemma CompactionRuns<P>(s: St<P>)
    requires CompactAllowed(s, 8)
    ensures Exec(s, CompactSteps()) == Some(CompactAt(s, 8))
  {
    CompactRuns(s, 8);
    var all: seq<Label<P>> := CompactSteps();
    assert all[..8] == all;
  }
}
