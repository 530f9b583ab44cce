/** A run that loses an answered insert because two processes have one dump prefix. */
module SharedPrefix {
  import opened Options
  import opened Wal
  import opened JournalMachine
  import opened Messages
  import opened Pipeline
  import opened PipelineSafety
  import opened SenderSafety
  import opened PipelineRuns
  import opened PipelineLimits
  import JournalCounts
  import JournalLimits
  import DumpName
  import D = DumpDirectory

  // A life with one insert, a crash, and a life with another that has come to its dump.
  function SharedSteps(
      prefix: string, backupPrefix: string, nextBackup: string, a: Arrival, b: Arrival, response: string): seq<Step>
  {
    LifeSteps(prefix, backupPrefix, a.req, a.size, a.ins, response) + [Die(Nothing)]
    + BootSteps(prefix, nextBackup) + DeliverSteps(b.req, b.size, b.ins, response)
  }

  // ---------------------------------------------------------------- the crash and the second start

  // What the crash leaves of the first life.
  function Crashed(p: Pipe): Pipe {
    p.(j := NewProcess(p.j.wal, p.j.ack, p.j.maxPending), live := Restarted(p.live), backup := Restarted(p.backup),
       tables := [], copies := [], replies := {})
  }

  lemma CrashRuns(p: Pipe, c: Config, prefix: string, a: Arrival, response: string)
    requires AfterLife(p, c, prefix, a.req, a.size, a.ins, response)
    ensures Run(p, [Die(Nothing)]) == Some(Crashed(p))
    ensures Along(p, [Die(Nothing)], ServesClean)
  {
    hide BatchMessage, DumpText, ReadsBack, FirstName, Run, Along;
    RunOne(p, Die(Nothing), Crashed(p));
    AlongOne(p, Die(Nothing), ServesClean);
  }

  lemma CrashSettles(p: Pipe, c: Config, prefix: string, a: Arrival, response: string)
    requires AfterLife(p, c, prefix, a.req, a.size, a.ins, response) && a.size < SCAN_LIMIT
    ensures Settled(Crashed(p)) && JournalLimits.Started(Crashed(p).j) == Server(c.maxPending, 1)
  {
    hide BatchMessage, DumpText, ReadsBack, FirstName, Unacked, Keep, Log;
    StartedOnOne(c.maxPending, a.req, a.size);
  }

  // The second process, when it serves: it counts its dumps anew.
  ghost predicate SecondServer(q: Pipe, c: Config, prefix: string, a: Arrival, response: string) {
    var name, m := FirstName(prefix, response), BatchMessage(c.removeQueryID, [a.ins]);
    && Unused(q) && q.j == Server(c.maxPending, 1) && q.book == map[a.req := a.ins] && q.answered == {a.req}
    && q.removeQueryID == c.removeQueryID
    && q.retired == [] && q.syncs == [] && q.doneOk == [] && q.doneBad == []
    && q.live.prefix == prefix && q.live.dumpNum == 0 && q.live.accepted == {}
    && q.live.dir == D.Dir(map[name := DumpText(m, response)], map[], {}, map[]) && q.live.failedOrigins == map[]
    && q.live.spoiled == (if ReadsBack(m, response) then {} else {a.req})
  }

  lemma SecondBoot(
      p: Pipe, c: Config, prefix: string, nextBackup: string, a: Arrival, response: string)
    requires AfterLife(p, c, prefix, a.req, a.size, a.ins, response) && a.size < SCAN_LIMIT
    ensures SecondServer(Booted(Crashed(p), prefix, nextBackup), c, prefix, a, response)
  {
    CrashSettles(p, c, prefix, a, response);
    hide BatchMessage, DumpText, ReadsBack, FirstName, Settled, JournalLimits.Started;
  }

  // ---------------------------------------------------------------- the second dump

  lemma SecondLog(maxPending: int, b: Arrival)
    ensures Log(Appended(maxPending, 1, b.req, b.size)) == [Record(2, b.req)]
  {
    var line := Line(Some(Record(2, b.req)), b.size);
    UnackedSnoc([], line, {});
    assert [] + [line] == [line] && [] + [Record(2, b.req)] == [Record(2, b.req)];
    assert Tokens(File([line], None)) == [line] && AckSet([]) == {};
  }

  // The second dump has the name of the first.
  lemma SecondStores(q: Pipe, c: Config, prefix: string, a: Arrival, b: Arrival, response: string)
    requires SecondServer(q, c, prefix, a, response)
    ensures var d := DeliveredPipe(q, b.req, b.size, b.ins, response);
            && StoredBy(d.live) <= {b.req}
            && d.live.spoiled <= q.live.spoiled + {b.req}
            && d.live.dir.pending.Keys == {FirstName(prefix, response)} == q.live.dir.pending.Keys
  {
    hide BatchMessage, DumpText, ReadsBack, DumpName.FileName, DumpName.KindOf, DeliveredPipe, NewlyTold, FileReqs;
    hide Reqs;
    var x, m := Item(2, b.req), BatchMessage(c.removeQueryID, [b.ins]);
    var name, text := FirstName(prefix, response), DumpText(m, response);
    DeliveredParts(q, b.req, b.size, b.ins, response);
    DumpStores(q.live, [x], m, StatusFor(response), text);
    assert q.live.dir.pending - {name} == map[];
    NoFiles(q.live.origins);
    NoFiles(q.live.failedOrigins);
    ReqsOne(x);
    NewIsOwn([x], m, text);
  }

  lemma NewIsOwn(b: Batch, m: Message, text: string)
    ensures NewlyTold(b, m, text) <= Reqs(b)
  {
    hide Reqs;
  }

  lemma SecondUnderWay(q: Pipe, c: Config, prefix: string, a: Arrival, b: Arrival, response: string)
    requires SecondServer(q, c, prefix, a, response)
    ensures var d := DeliveredPipe(q, b.req, b.size, b.ins, response);
            && d.j == Appended(c.maxPending, 1, b.req, b.size) && d.answered == {a.req} + {b.req}
            && forall x | x in UnderWay(d) :: x == [] || x == [Item(2, b.req)]
  {
    DeliveredParts(q, b.req, b.size, b.ins, response);
    hide BatchMessage, DumpText, ReadsBack, FirstName, DeliveredPipe, DumpedWhole, Appended;
  }

  lemma SecondIsLast(q: Pipe, c: Config, prefix: string, a: Arrival, b: Arrival, response: string)
    requires SecondServer(q, c, prefix, a, response) && a.req != b.req
    ensures var d := DeliveredPipe(q, b.req, b.size, b.ins, response);
            && Lost(d, a.req) && b.req in d.answered
            && (ReadsBack(BatchMessage(c.removeQueryID, [a.ins]), response) ==> a.req !in d.live.spoiled)
  {
    hide BatchMessage, DumpText, ReadsBack, FirstName, DeliveredPipe, StoredBy, Reqs, Log, UnderWay, Appended, Unused;
    SecondStores(q, c, prefix, a, b, response);
    SecondLog(c.maxPending, b);
    SecondUnderWay(q, c, prefix, a, b, response);
    ReqsOne(Item(2, b.req));
    NoReqs();
  }

  // ---------------------------------------------------------------- the run

  lemma OnePrefix(
      prefix: string, backupPrefix: string, nextBackup: string, a: Arrival, b: Arrival, response: string)
    ensures forall s | s in SharedSteps(prefix, backupPrefix, nextBackup, a, b, response) && s.Start? ::
              s.prefix == prefix
  {
    hide Inners, AcceptSteps, PushSteps, DumpSteps, AckSteps;
    NoStart(a, response);
    NoStart(b, response);
  }

  lemma NoStart(a: Arrival, response: string)
    ensures forall s | s in AcceptSteps(a.req, a.size, a.ins) + PushSteps(a.ins) + DumpSteps(response) :: !s.Start?
    ensures forall s | s in AckSteps() + Inners(JournalCounts.CompactSteps()) :: !s.Start?
  {
  }

  /**
   A prefix of its own is needed: for any two inserts there is a run of two processes that both compact before they
   serve, but start with the same dump prefix, as they do in the same second. The first answers its insert, dumps it
   and acknowledges it; the second answers and dumps the other, in a file of the same name. Then the first insert is
   nowhere on the live side, also when its dump was one that reads back.
   */
  lemma SharedPrefixLoses(
      c: Config, prefix: string, backupPrefix: string, nextBackup: string, a: Arrival, b: Arrival, response: string)
      returns (states: seq<Pipe>, steps: seq<Step>)
    requires IsPrefix(prefix) && IsPrefix(backupPrefix) && IsPrefix(nextBackup)
    requires a.req != b.req && a.size < SCAN_LIMIT
    ensures PipeFromEmpty(states, steps, c) && forall i | 0 <= i < |steps| :: ServesClean(states[i], steps[i])
    ensures forall s | s in steps && s.Start? :: s.prefix == prefix
    ensures Lost(states[|steps|], a.req) && b.req in states[|steps|].answered
    ensures ReadsBack(BatchMessage(c.removeQueryID, [a.ins]), response) ==>
              forall i | 0 <= i < |steps| :: !Spoils(states[i], steps[i], a.req)
  {
    hide Run, Along, AfterLife, LifeSteps, BootSteps, DeliverSteps, Untouched, Crashed, Booted, DeliveredPipe, Lost;
    hide BatchMessage, ReadsBack, SecondServer, Settled, PipeFromEmpty, Spoils, IsPrefix, ServesClean, Unused;
    var life := LifeSteps(prefix, backupPrefix, a.req, a.size, a.ins, response);
    var boot, deliver := BootSteps(prefix, nextBackup), DeliverSteps(b.req, b.size, b.ins, response);
    var p := LifeRuns(c, prefix, backupPrefix, a.req, a.size, a.ins, response);
    CrashRuns(p, c, prefix, a, response);
    CrashSettles(p, c, prefix, a, response);
    BootRuns(Crashed(p), prefix, nextBackup);
    SecondBoot(p, c, prefix, nextBackup, a, response);
    var q := Booted(Crashed(p), prefix, nextBackup);
    SecondIsUnused(q, c, prefix, a, b, response);
    DeliverRuns(q, b.req, b.size, b.ins, response);
    var d := DeliveredPipe(q, b.req, b.size, b.ins, response);
    RunThen(Untouched(c), life, p, [Die(Nothing)], Crashed(p));
    RunThen(Untouched(c), life + [Die(Nothing)], Crashed(p), boot, q);
    RunThen(Untouched(c), life + [Die(Nothing)] + boot, q, deliver, d);
    AlongThen(Untouched(c), life, p, [Die(Nothing)], ServesClean);
    AlongThen(Untouched(c), life + [Die(Nothing)], Crashed(p), boot, ServesClean);
    AlongThen(Untouched(c), life + [Die(Nothing)] + boot, q, deliver, ServesClean);
    steps := SharedSteps(prefix, backupPrefix, nextBackup, a, b, response);
    states := StatesOf(c, steps, d);
    SecondIsLast(q, c, prefix, a, b, response);
    OnePrefix(prefix, backupPrefix, nextBackup, a, b, response);
    SpoiledMeaning(states, steps, c, |steps|, a.req);
  }

  lemma SecondIsUnused(q: Pipe, c: Config, prefix: string, a: Arrival, b: Arrival, response: string)
    requires SecondServer(q, c, prefix, a, response) && a.req != b.req
    ensures Unused(q) && b.req !in q.book
  {
    hide BatchMessage, ReadsBack, DumpText, FirstName;
  }
}
