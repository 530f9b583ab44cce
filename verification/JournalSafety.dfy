/** What every step, and every run, of the journal keeps. */
module JournalSafety {
  import opened Options
  import opened Wal
  import opened JournalMachine

  lemma AckSetSnoc(ack: seq<nat>, id: nat)
    ensures AckSet(ack + [id]) == AckSet(ack) + {id}
  {
    var all := ack + [id];
    assert all[|ack|] == id;
    forall x | x in AckSet(ack) ensures x in AckSet(all) {
      var i :| 0 <= i < |ack| && ack[i] == x;
      assert all[i] == x;
    }
  }

  // While a process runs, the memory's view of the pending records is the disk's.
  lemma ReplayIsLog<P>(s: St<P>)
    requires Inv(s) && Up(s)
    ensures ReplayedRecords(s) == Log(s)
  {
    UnackedAgree(Tokens(s.wal), s.acked, AckSet(s.ack));
  }

  // A line put at the end of a file that has no unterminated tail.
  lemma AppendedLine<P>(s: St<P>, wal: File<P>)
    requires Inv(s) && s.phase.Writing? && s.wal.tail.None?
    requires Tokens(wal) == Tokens(s.wal) + [s.phase.line]
    ensures Increasing(Tokens(wal)) && Ids(Tokens(wal)) == Ids(Tokens(s.wal)) + {s.nextID}
    ensures Unacked(Tokens(wal), AckSet(s.ack)) == Log(s) + [s.phase.line.parsed.value]
  {
    hide Unacked, Keep, Tokens, AckSet, Increasing, Ids;
    var ts := Tokens(s.wal);
    UnackedSnoc(ts, s.phase.line, AckSet(s.ack));
    IdsSnoc(ts, s.phase.line);
    IncreasingSnoc(ts, s.phase.line);
  }

  // A fragment that does not parse changes nothing that is read back.
  lemma AppendedFragment<P>(s: St<P>, wal: File<P>, l: Filled<P>)
    requires Inv(s) && l.parsed.None?
    requires Tokens(wal) == Tokens(s.wal) + [l]
    ensures Increasing(Tokens(wal)) && Ids(Tokens(wal)) == Ids(Tokens(s.wal))
    ensures Unacked(Tokens(wal), AckSet(s.ack)) == Log(s)
  {
    UnackedSnoc(Tokens(s.wal), l, AckSet(s.ack));
    IdsSnoc(Tokens(s.wal), l);
  }

  // The three things a write cut short can leave, and the whole line.
  lemma FragmentWritten<P>(s: St<P>, frag: Fragment)
    requires Inv(s) && s.phase.Writing? && s.writer.Ready?
    ensures var wal := WriteFragment(s.wal, s.phase.line, frag);
            && Increasing(Tokens(wal)) && Ids(Tokens(wal)) <= Ids(Tokens(s.wal)) + {s.nextID}
            && Unacked(Tokens(wal), AckSet(s.ack))
               == if frag.AllButNewline? then Log(s) + [s.phase.line.parsed.value] else Log(s)
  {
    var wal := WriteFragment(s.wal, s.phase.line, frag);
    match frag {
      case Nothing =>
      case Torn(n) => AppendedFragment(s, wal, Line(None, n));
      case AllButNewline => AppendedLine(s, wal);
    }
  }

  lemma WriteStep<P>(s: St<P>)
    requires Inv(s) && Enabled(s, Write)
    ensures Inv(Apply(s, Write)) && Log(Apply(s, Write)) == LogStep(Log(s), EventOf(s, Write))
  {
    var s' := Apply(s, Write);
    assert Tokens(s'.wal) == Tokens(s.wal) + [s.phase.line];
    AppendedLine(s, s'.wal);
  }

  lemma WriteFailStep<P>(s: St<P>, frag: Fragment)
    requires Inv(s) && Enabled(s, WriteFail(frag))
    ensures Inv(Apply(s, WriteFail(frag)))
    ensures Log(Apply(s, WriteFail(frag))) == LogStep(Log(s), EventOf(s, WriteFail(frag)))
  {
    hide WriteFragment, Unacked, Increasing, Tokens, AckSet, Keep, Ids, Inv;
    NothingWritten(s, frag);
    if s.writer.Ready? {
      FragmentWritten(s, frag);
    }
    AfterFragment(s, Apply(s, WriteFail(frag)));
  }

  lemma NothingWritten<P>(s: St<P>, frag: Fragment)
    requires Inv(s) && s.phase.Writing?
    ensures frag.Nothing? ==> WriteFragment(s.wal, s.phase.line, frag) == s.wal
    ensures Increasing(Tokens(s.wal)) && s.phase.line.parsed.Some? && Up(s)
  {
  }

  lemma AfterFragment<P>(s: St<P>, s': St<P>)
    requires Inv(s) && Up(s) && s.phase.Writing? && s'.phase.Idle? && Increasing(Tokens(s'.wal))
    requires Ids(Tokens(s'.wal)) <= Ids(Tokens(s.wal)) + {s.nextID}
    requires s'.ack == s.ack && s'.acked == s.acked && s'.nextID == s.nextID && s'.stage == s.stage
    ensures Inv(s')
  {
    hide Unacked, Increasing, Tokens, AckSet, Keep, Ids;
  }

  lemma CrashStep<P>(s: St<P>, frag: Fragment)
    requires Inv(s) && Enabled(s, Crash(frag))
    ensures Inv(Apply(s, Crash(frag)))
    ensures Log(Apply(s, Crash(frag))) == LogStep(Log(s), EventOf(s, Crash(frag)))
  {
    if s.phase.Writing? && s.writer.Ready? {
      FragmentWritten(s, frag);
    }
  }

  lemma AckNextStep<P>(s: St<P>)
    requires Inv(s) && Enabled(s, AckNext)
    ensures Inv(Apply(s, AckNext)) && Log(Apply(s, AckNext)) == LogStep(Log(s), EventOf(s, AckNext))
  {
    var id := s.phase.todo[0];
    if Fresh(s, id) {
      AckSetSnoc(s.ack, id);
      UnackedAck(Tokens(s.wal), AckSet(s.ack), id);
    }
  }

  // The rename replaces the WAL by its pending lines and no pending record is lost or gained.
  lemma RenameStep<P>(s: St<P>)
    requires Inv(s) && Enabled(s, Rename)
    ensures Inv(Apply(s, Rename)) && Log(Apply(s, Rename)) == Log(s)
  {
    var ts, disk := Tokens(s.wal), AckSet(s.ack);
    KeepIncreasing(ts, s.acked);
    KeepIds(ts, s.acked);
    UnackedKeep(ts, s.acked, disk);
    UnackedAgree(ts, s.acked + disk, disk);
    assert Tokens(Apply(s, Rename).wal) == Keep(ts, s.acked);
  }

  // Emptying the acknowledgement file is safe because no line left in the WAL is acknowledged.
  lemma EmptyAckStep<P>(s: St<P>)
    requires Inv(s) && Enabled(s, EmptyAck)
    ensures Inv(Apply(s, EmptyAck)) && Log(Apply(s, EmptyAck)) == Log(s)
  {
    assert AckSet([]) == {};
    UnackedAgree(Tokens(s.wal), AckSet(s.ack), {});
  }

  lemma OpenStep<P>(s: St<P>)
    requires Inv(s) && Enabled(s, Open)
    ensures Inv(Apply(s, Open)) && Log(Apply(s, Open)) == Log(s)
  {
    var ts := Tokens(s.wal);
    forall id | id in Ids(ts) ensures id <= MaxId(ts, 0) {
      var i :| 0 <= i < |ts| && ts[i].parsed.Some? && ts[i].parsed.value.id == id;
      assert ts[i] in ts;
    }
  }

  lemma AppendBeginStep<P>(s: St<P>, payload: P, size: Positive)
    requires Inv(s) && Enabled(s, AppendBegin(payload, size)) && SafeToAppend(s)
    ensures Inv(Apply(s, AppendBegin(payload, size))) && s.nextID + 1 !in Ids(Tokens(s.wal))
  {
  }

  /**
   Refinement, one step: every step of the journal keeps the invariant, and on the pending records that the disk alone
   tells it is a step of a plain log: append one, remove one, or nothing. Compaction, failure and crash are nothing.
   */
  lemma StepRefines<P>(s: St<P>, l: Label<P>)
    requires Inv(s) && Enabled(s, l) && Careful(s, l)
    ensures Inv(Apply(s, l)) && Log(Apply(s, l)) == LogStep(Log(s), EventOf(s, l))
  {
    match l {
      case Open => OpenStep(s);
      case AppendBegin(payload, size) => AppendBeginStep(s, payload, size);
      case Write => WriteStep(s);
      case WriteFail(frag) => WriteFailStep(s, frag);
      case Crash(frag) => CrashStep(s, frag);
      case AckNext => AckNextStep(s);
      case Rename => RenameStep(s);
      case EmptyAck => EmptyAckStep(s);
      case _ =>
    }
  }

  // A finished compaction makes every later append of the same process safe.
  lemma CleanStep<P>(s: St<P>, l: Label<P>)
    requires Inv(s) && CleanInv(s) && Enabled(s, l) && Careful(s, l) && Modest(s, l)
    ensures CleanInv(Apply(s, l))
  {
    match l {
      case AckNext => AckSetSnoc(s.ack, s.phase.todo[0]);
      case EmptyAck => assert AckSet([]) == {};
      case _ =>
    }
  }

  // What one written line does to the pending records of a file, with or without an unterminated tail.
  lemma WrittenLine<P>(f: File<P>, l: Line<P>, acked: set<nat>)
    ensures var before, after := Unacked(Tokens(f), acked), Unacked(Tokens(WriteLine(f, l)), acked);
            if f.tail.Some? then |after| <= |before|
            else after == if Live(l, acked) then before + [l.parsed.value] else before
  {
    var written := WriteLine(f, l);
    if f.tail.Some? {
      UnackedSnoc(f.lines, f.tail.value, acked);
      UnackedSnoc(f.lines, Glue(f.tail.value, l.size), acked);
      assert Tokens(f) == f.lines + [f.tail.value];
      assert Tokens(written) == f.lines + [Glue(f.tail.value, l.size)];
    } else {
      UnackedSnoc(Tokens(f), l, acked);
      assert Tokens(written) == Tokens(f) + [l];
    }
  }

  /**
   The exact condition: whatever the start-up did, an append that reaches the file adds its record to the pending ones
   and leaves the others alone if and only if it began in a safe state.
   */
  lemma AppendExact<P>(s: St<P>, payload: P, size: Positive)
    requires Enabled(s, AppendBegin(payload, size)) && s.writer.Ready?
    ensures var begun := Apply(s, AppendBegin(payload, size));
            Log(Apply(begun, Write)) == Log(s) + [Record(s.nextID + 1, payload)] <==> SafeToAppend(s)
  {
    hide Tokens, Unacked, AckSet;
    WrittenLine(s.wal, Line(Some(Record(s.nextID + 1, payload)), size), AckSet(s.ack));
  }

  // ---------------------------------------------------------------- whole runs

  // A run: the labels in order and the states they go through.
  ghost predicate IsRun<P(!new)>(states: seq<St<P>>, labels: seq<Label<P>>) {
    && |states| == |labels| + 1
    && forall i | 0 <= i < |labels| :: Enabled(states[i], labels[i]) && states[i + 1] == Apply(states[i], labels[i])
  }

  ghost predicate FromEmpty<P(!new)>(states: seq<St<P>>, labels: seq<Label<P>>, maxPending: int) {
    IsRun(states, labels) && states[0] == NewProcess(File([], None), [], maxPending)
  }

  // Every append began in a safe state.
  ghost predicate SafeRun<P(!new)>(states: seq<St<P>>, labels: seq<Label<P>>, maxPending: int) {
    FromEmpty(states, labels, maxPending) && forall i | 0 <= i < |labels| :: Careful(states[i], labels[i])
  }

  // Every process that served had finished a compaction first, as the start-up sequence intends, and acknowledged
  // only ids that had been given out.
  ghost predicate CompactedRun<P(!new)>(states: seq<St<P>>, labels: seq<Label<P>>, maxPending: int) {
    && FromEmpty(states, labels, maxPending)
    && (forall i | 0 <= i < |labels| && labels[i].Serve? :: states[i].clean)
    && (forall i | 0 <= i < |labels| :: Modest(states[i], labels[i]))
  }

  ghost function History<P(!new)>(states: seq<St<P>>, labels: seq<Label<P>>): (h: seq<Event<P>>)
    requires IsRun(states, labels)
    ensures |h| == |labels|
  {
    seq(|labels|, i requires 0 <= i < |labels| => EventOf(states[i], labels[i]))
  }

  // The records logged and not acknowledged since, oldest first.
  function Survivors<P>(h: seq<Event<P>>): seq<Record<P>> {
    if h == [] then [] else LogStep(Survivors(h[..|h| - 1]), h[|h| - 1])
  }

  ghost predicate SurvivedFrom<P>(h: seq<Event<P>>, i: int, r: Record<P>) {
    && 0 <= i < |h| && h[i] == Logged(r)
    && forall j | i < j < |h| :: h[j] != Acked(r.id)
  }

  // Survivors, said without recursion: it was logged, and no acknowledgement of its id came later.
  lemma {:induction false} SurvivorsMeaning<P>(h: seq<Event<P>>, r: Record<P>)
    ensures r in Survivors(h) <==> exists i :: SurvivedFrom(h, i, r)
  {
    if h != [] {
      var pre, e := h[..|h| - 1], h[|h| - 1];
      SurvivorsMeaning(pre, r);
      if e.Acked? {
        WithoutMember(Survivors(pre), e.id);
      }
      if r in Survivors(h) {
        if e == Logged(r) {
          assert SurvivedFrom(h, |h| - 1, r);
        } else {
          var i :| SurvivedFrom(pre, i, r);
          assert SurvivedFrom(h, i, r);
        }
      }
      if i :| SurvivedFrom(h, i, r) {
        if i < |h| - 1 {
          assert SurvivedFrom(pre, i, r);
        }
      }
    }
  }

  lemma {:induction false} RunKeeps<P(!new)>(states: seq<St<P>>, labels: seq<Label<P>>, maxPending: int, n: nat)
    requires SafeRun(states, labels, maxPending) && n <= |labels|
    ensures Inv(states[n]) && Log(states[n]) == Survivors(History(states, labels)[..n])
  {
    var h := History(states, labels);
    if n == 0 {
      assert Tokens(states[0].wal) == [];
    } else {
      RunKeeps(states, labels, maxPending, n - 1);
      StepRefines(states[n - 1], labels[n - 1]);
      assert h[..n][..n - 1] == h[..n - 1];
    }
  }

  lemma {:induction false} CompactedKeeps<P(!new)>(
      states: seq<St<P>>, labels: seq<Label<P>>, maxPending: int, n: nat)
    requires CompactedRun(states, labels, maxPending) && n <= |labels|
    ensures Inv(states[n]) && CleanInv(states[n]) && (states[n].stage.Serving? ==> states[n].clean)
    ensures forall i | 0 <= i < n :: Careful(states[i], labels[i])
  {
    if n > 0 {
      hide Inv, LogStep, EventOf, Log, Fresh;
      CompactedKeeps(states, labels, maxPending, n - 1);
      StepRefines(states[n - 1], labels[n - 1]);
      CleanStep(states[n - 1], labels[n - 1]);
    }
  }

  /**
   The start-up sequence does its job: if no process serves before a compaction has finished, every append of the run
   begins in a safe state.
   */
  lemma CompactedIsSafe<P(!new)>(states: seq<St<P>>, labels: seq<Label<P>>, maxPending: int)
    requires CompactedRun(states, labels, maxPending)
    ensures SafeRun(states, labels, maxPending)
  {
    CompactedKeeps(states, labels, maxPending, |labels|);
  }

  /**
   Crash durability, whole runs: after any interleaving of appends, acknowledgements, compaction steps, I/O failures and
   crashes, the files tell exactly the records logged and not acknowledged since, in order and unchanged; and a process
   that is running replays exactly those.
   */
  lemma CrashDurability<P(!new)>(states: seq<St<P>>, labels: seq<Label<P>>, maxPending: int)
    requires SafeRun(states, labels, maxPending)
    ensures var last := states[|labels|];
            && Log(last) == Survivors(History(states, labels))
            && (Up(last) ==> ReplayedRecords(last) == Survivors(History(states, labels)))
  {
    RunKeeps(states, labels, maxPending, |labels|);
    var h := History(states, labels);
    assert h[..|labels|] == h;
    if Up(states[|labels|]) {
      ReplayIsLog(states[|labels|]);
    }
  }

  lemma WrittenBefore<P>(s: St<P>, l: Label<P>)
    requires Inv(s) && Enabled(s, l) && Apply(s, l).phase.Written?
    ensures l.Write? && s.phase.Writing? && s.phase.line == Apply(s, l).phase.line
  {
  }

  // An append that returned success is pending at that moment.
  lemma AnsweredIsLogged<P(!new)>(states: seq<St<P>>, labels: seq<Label<P>>, maxPending: int, i: nat)
    requires SafeRun(states, labels, maxPending) && i < |labels| && labels[i].Return?
    ensures states[i].phase.line.parsed.Some?
    ensures i > 0 && History(states, labels)[i - 1] == Logged(states[i].phase.line.parsed.value)
  {
    RunKeeps(states, labels, maxPending, i);
    assert states[i].phase.Written?;
    RunKeeps(states, labels, maxPending, i - 1);
    WrittenBefore(states[i - 1], labels[i - 1]);
  }

  /**
   What a client gets for an answer: a record whose append returned is replayed by every later process, as it was,
   unless its id was acknowledged after the append.
   */
  lemma AnsweredSurvives<P(!new)>(states: seq<St<P>>, labels: seq<Label<P>>, maxPending: int, i: nat)
    requires SafeRun(states, labels, maxPending) && i < |labels| && labels[i].Return?
    requires states[i].phase.line.parsed.Some?
    requires forall j | i < j < |labels| ::
               EventOf(states[j], labels[j]) != Acked(states[i].phase.line.parsed.value.id)
    ensures states[i].phase.line.parsed.value in Log(states[|labels|])
  {
    var h, r := History(states, labels), states[i].phase.line.parsed.value;
    AnsweredIsLogged(states, labels, maxPending, i);
    CrashDurability(states, labels, maxPending);
    assert h[i] == Silent;
    assert SurvivedFrom(h, i - 1, r);
    SurvivorsMeaning(h, r);
  }

  // New ids never meet an old acknowledgement or an old record.
  lemma FreshIds<P(!new)>(states: seq<St<P>>, labels: seq<Label<P>>, maxPending: int, i: nat)
    requires SafeRun(states, labels, maxPending) && i < |labels| && labels[i].AppendBegin?
    ensures states[i + 1].nextID !in states[i].ack
    ensures states[i + 1].nextID !in Ids(Tokens(states[i].wal))
  {
    RunKeeps(states, labels, maxPending, i);
    AppendBeginStep(states[i], labels[i].payload, labels[i].size);
    var ack := states[i].ack;
    assert forall k | 0 <= k < |ack| :: ack[k] in AckSet(ack);
  }
}
