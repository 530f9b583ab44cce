/** A run that loses an answered insert whose dump does not read back: the converse of PipelineSafety.AnsweredIsSafe. */
module PipelineLimits {
  import opened Options
  import opened Wal
  import opened JournalMachine
  import opened Messages
  import opened Pipeline
  import opened PipelineSafety
  import opened SenderSafety
  import opened PipelineRuns
  import Text
  import DumpCodec
  import DumpName
  import D = DumpDirectory

  // ---------------------------------------------------------------- the replay of a dump

  // What the replays do with the file: a client error is moved to failed/ and retried from there; a file with nothing
  // in it to send is removed at once.
  function ReplayLabels(name: string, text: string): seq<D.Label> {
    if DumpName.IsClientError(name) then
      if D.HasPayload(text) then [D.Moved(name), D.Retried(name), D.Dropped(name)] else [D.Moved(name), D.Dropped(name)]
    else
      if D.HasPayload(text) then [D.Sent(name), D.Removed(name)] else [D.Removed(name)]
  }

  function Spoolings(labels: seq<D.Label>): seq<Step> {
    seq(|labels|, i requires 0 <= i < |labels| => Work(Live, Spooled(labels[i])))
  }

  function ReplayedPipe(p: Pipe, name: string, text: string): Pipe
    requires name in p.live.origins
  {
    var sent := if D.HasPayload(text) then map[name := D.Read(text)] else map[];
    var retired := if DumpName.IsClientError(name) then map[name := p.live.origins[name]] else map[];
    p.(live := p.live.(dir := D.Dir(map[], map[], {}, sent), failedOrigins := retired))
  }

  // A file that does not say what it was written for adds nothing to what the server has taken.
  lemma SpooledStep(p: Pipe, l: D.Label, t: Sender)
    requires Up(p.j) && D.Enabled(p.live.dir, l) && !l.Wrote? && !l.Pruned? && Taken(p.live, l) == {}
    requires t == p.live.(dir := D.Apply(p.live.dir, l), failedOrigins := Carried(p.live, l))
    ensures Can(p, Work(Live, Spooled(l))) && Do(p, Work(Live, Spooled(l))) == p.(live := t)
  {
    hide BatchMessage, D.Apply, D.Enabled, Up, Taken, Carried;
    assert p.live.accepted + {} == p.live.accepted;
  }

  lemma StepsOf(a: D.Label, b: D.Label, c: D.Label)
    ensures Spoolings([a]) == [Work(Live, Spooled(a))]
    ensures Spoolings([a, b]) == [Work(Live, Spooled(a)), Work(Live, Spooled(b))]
    ensures Spoolings([a, b, c]) == [Work(Live, Spooled(a)), Work(Live, Spooled(b)), Work(Live, Spooled(c))]
  {
  }

  // A directory with this one file, which does not say what it was written for.
  ghost predicate OneFile(s: Sender, name: string, text: string) {
    && s.dir == D.Dir(map[name := text], map[], {}, map[]) && s.failedOrigins == map[]
    && name in s.origins && !Tells(s.origins, name, text)
  }

  // A client error, in failed/.
  function RetiredTo(p: Pipe, name: string, d: D.Dir): Pipe
    requires name in p.live.origins
  {
    p.(live := p.live.(dir := d, failedOrigins := map[name := p.live.origins[name]]))
  }

  lemma MoveRuns(p: Pipe, name: string, text: string)
    requires Up(p.j) && OneFile(p.live, name, text) && DumpName.IsClientError(name)
    ensures var q := RetiredTo(p, name, D.Dir(map[], map[name := text], {}, map[]));
            Can(p, Work(Live, Spooled(D.Moved(name)))) && Do(p, Work(Live, Spooled(D.Moved(name)))) == q
  {
    hide D.Read, D.HasPayload, DumpName.IsClientError, Up, D.TellsAs, Can, Do;
    assert map[name := text] - {name} == map[] && map[][name := text] == map[name := text];
    assert map[][name := p.live.origins[name]] == map[name := p.live.origins[name]];
    SpooledStep(p, D.Moved(name), RetiredTo(p, name, D.Dir(map[], map[name := text], {}, map[])).live);
  }

  lemma RetryRuns(p: Pipe, name: string, text: string)
    requires Up(p.j) && OneFile(p.live, name, text) && DumpName.IsClientError(name) && D.HasPayload(text)
    ensures var q := RetiredTo(p, name, D.Dir(map[], map[name := text], {}, map[]));
            var r := RetiredTo(p, name, D.Dir(map[], map[name := text], {}, map[name := D.Read(text)]));
            && Can(q, Work(Live, Spooled(D.Retried(name)))) && Do(q, Work(Live, Spooled(D.Retried(name)))) == r
            && Can(r, Work(Live, Spooled(D.Dropped(name))))
            && Do(r, Work(Live, Spooled(D.Dropped(name)))) == ReplayedPipe(p, name, text)
  {
    hide D.Read, D.HasPayload, DumpName.IsClientError, Up, D.TellsAs, Can, Do;
    var none: map<string, string> := map[];
    assert map[name := text] - {name} == none;
    var q := RetiredTo(p, name, D.Dir(none, map[name := text], {}, map[]));
    var r := RetiredTo(p, name, D.Dir(none, map[name := text], {}, map[name := D.Read(text)]));
    SpooledStep(q, D.Retried(name), r.live);
    SpooledStep(r, D.Dropped(name), ReplayedPipe(p, name, text).live);
  }

  lemma DropRuns(p: Pipe, name: string, text: string)
    requires Up(p.j) && OneFile(p.live, name, text) && DumpName.IsClientError(name) && !D.HasPayload(text)
    ensures var q := RetiredTo(p, name, D.Dir(map[], map[name := text], {}, map[]));
            && Can(q, Work(Live, Spooled(D.Dropped(name))))
            && Do(q, Work(Live, Spooled(D.Dropped(name)))) == ReplayedPipe(p, name, text)
  {
    hide D.Read, D.HasPayload, DumpName.IsClientError, Up, D.TellsAs, Can, Do;
    assert map[name := text] - {name} == map[];
    SpooledStep(RetiredTo(p, name, D.Dir(map[], map[name := text], {}, map[])), D.Dropped(name),
                ReplayedPipe(p, name, text).live);
  }

  lemma RetiredRuns(p: Pipe, name: string, text: string)
    requires Up(p.j) && OneFile(p.live, name, text) && DumpName.IsClientError(name)
    ensures Run(p, Spoolings(ReplayLabels(name, text))) == Some(ReplayedPipe(p, name, text))
  {
    hide Run, D.Read, D.HasPayload, DumpName.IsClientError, Up, Tells, Can, Do, Spoolings, ReplayedPipe;
    var q := RetiredTo(p, name, D.Dir(map[], map[name := text], {}, map[]));
    MoveRuns(p, name, text);
    if D.HasPayload(text) {
      RetryRuns(p, name, text);
      RunThree(p, Work(Live, Spooled(D.Moved(name))), q, Work(Live, Spooled(D.Retried(name))),
               RetiredTo(p, name, D.Dir(map[], map[name := text], {}, map[name := D.Read(text)])),
               Work(Live, Spooled(D.Dropped(name))), ReplayedPipe(p, name, text));
      StepsOf(D.Moved(name), D.Retried(name), D.Dropped(name));
    } else {
      DropRuns(p, name, text);
      RunTwo(p, Work(Live, Spooled(D.Moved(name))), q, Work(Live, Spooled(D.Dropped(name))),
             ReplayedPipe(p, name, text));
      StepsOf(D.Moved(name), D.Dropped(name), D.Dropped(name));
    }
  }

  lemma TransientRuns(p: Pipe, name: string, text: string)
    requires Up(p.j) && OneFile(p.live, name, text) && !DumpName.IsClientError(name)
    ensures Run(p, Spoolings(ReplayLabels(name, text))) == Some(ReplayedPipe(p, name, text))
  {
    hide Run, D.Read, D.HasPayload, DumpName.IsClientError, Up, D.TellsAs, Can, Do, Spoolings;
    assert map[name := text] - {name} == map[] && map[][name := text] == map[name := text];
    var told := map[name := D.Read(text)];
    var none: map<string, string> := map[];
    var q := (d: D.Dir) => p.(live := p.live.(dir := d));
    var c := D.Dir(map[name := text], none, {}, told);
    if D.HasPayload(text) {
      SpooledStep(p, D.Sent(name), q(c).live);
      SpooledStep(q(c), D.Removed(name), q(D.Dir(none, none, {}, told)).live);
      RunTwo(p, Work(Live, Spooled(D.Sent(name))), q(c), Work(Live, Spooled(D.Removed(name))),
             ReplayedPipe(p, name, text));
      StepsOf(D.Sent(name), D.Removed(name), D.Removed(name));
    } else {
      SpooledStep(p, D.Removed(name), q(D.Dir(none, none, {}, map[])).live);
      RunOne(p, Work(Live, Spooled(D.Removed(name))), ReplayedPipe(p, name, text));
      StepsOf(D.Removed(name), D.Removed(name), D.Removed(name));
    }
  }

  lemma ReplayRuns(p: Pipe, name: string, text: string)
    requires Up(p.j) && OneFile(p.live, name, text)
    ensures Run(p, Spoolings(ReplayLabels(name, text))) == Some(ReplayedPipe(p, name, text))
    ensures forall q, s | s in Spoolings(ReplayLabels(name, text)) :: ServesClean(q, s) && OwnPrefix(q, s)
  {
    hide Run, ReplayedPipe, DumpName.IsClientError, D.HasPayload, Tells;
    if DumpName.IsClientError(name) {
      RetiredRuns(p, name, text);
    } else {
      TransientRuns(p, name, text);
    }
  }

  // ---------------------------------------------------------------- the run that loses an insert

  // What the live side has under way, but for a copy on its way to the backup.
  function UnderWay(p: Pipe): seq<Batch> {
    [p.pushes] + p.tables + p.retired + p.unsent + p.live.queue + [Held(p.live.worker), p.syncs, p.doneOk, p.doneBad]
  }

  // Answered, and not in the journal, in the process, at the server or in the dump directory of the live side.
  ghost predicate Lost(p: Pipe, req: nat) {
    && req in p.answered
    && (forall r | r in Log(p.j) :: r.payload != req)
    && (forall b | b in UnderWay(p) :: req !in Reqs(b))
    && req !in StoredBy(p.live)
  }

  // A life of a process: it starts, takes one insert, dumps it and acknowledges it.
  function LifeSteps(
      prefix: string, backupPrefix: string, req: nat, size: Positive, ins: Ins, response: string): seq<Step>
  {
    BootSteps(prefix, backupPrefix) + DeliverSteps(req, size, ins, response) + AckSteps()
  }

  // What it leaves: one dump, one acknowledged record, and nothing under way.
  ghost predicate AfterLife(
      p: Pipe, c: Config, prefix: string, req: nat, size: Positive, ins: Ins, response: string)
  {
    var name, m := FirstName(prefix, response), BatchMessage(c.removeQueryID, [ins]);
    && p.j == Acknowledged(c.maxPending, req, size) && p.book == map[req := ins] && p.answered == {req}
    && p.removeQueryID == c.removeQueryID
    && p.pushes == [] && p.unsent == [] && (forall t | t in p.tables :: t == []) && p.retired == []
    && p.syncs == [] && p.doneOk == [] && p.doneBad == [] && p.live.queue == [] && p.live.worker.Resting?
    && p.live.prefix == prefix && p.live.hasJournal && p.live.accepted == {}
    && p.live.dir == D.Dir(map[name := DumpText(m, response)], map[], {}, map[])
    && p.live.origins == map[name := Origin([Item(1, req)], m)] && p.live.failedOrigins == map[]
    && p.live.spoiled == (if ReadsBack(m, response) then {} else {req})
  }

  // The first dump of a process.
  function FirstName(prefix: string, response: string): string {
    DumpName.FileName(prefix, 1, DumpName.KindOf(StatusFor(response)), StatusFor(response))
  }

  lemma LifeRuns(
      c: Config, prefix: string, backupPrefix: string, req: nat, size: Positive, ins: Ins, response: string)
      returns (p: Pipe)
    requires IsPrefix(prefix) && IsPrefix(backupPrefix)
    ensures var steps := LifeSteps(prefix, backupPrefix, req, size, ins, response);
            && Run(Untouched(c), steps) == Some(p)
            && Along(Untouched(c), steps, ServesClean) && Along(Untouched(c), steps, OwnPrefix)
    ensures AfterLife(p, c, prefix, req, size, ins, response)
  {
    hide Run, Along, AfterLife, DeliverSteps, BootSteps, AckSteps, DeliveredPipe, Settled, IsPrefix, Booted, Unused;
    hide Untouched;
    hide AckedPipe;
    var b := Booted(Untouched(c), prefix, backupPrefix);
    FirstBoot(c, prefix, backupPrefix);
    BootRuns(Untouched(c), prefix, backupPrefix);
    DeliverRuns(b, req, size, ins, response);
    var d := DeliveredPipe(b, req, size, ins, response);
    p := AckedPipe(d, req, size);
    FirstDelivery(b, c, prefix, req, size, ins, response);
    AckRuns(d, Item(1, req), req, size);
    AckQuiet(d);
    var boot, deliver := BootSteps(prefix, backupPrefix), DeliverSteps(req, size, ins, response);
    RunThen(Untouched(c), boot, b, deliver, d);
    RunThen(Untouched(c), boot + deliver, d, AckSteps(), p);
    AlongThen(Untouched(c), boot, b, deliver, ServesClean);
    AlongThen(Untouched(c), boot + deliver, d, AckSteps(), ServesClean);
    AlongThen(Untouched(c), boot, b, deliver, OwnPrefix);
    AlongThen(Untouched(c), boot + deliver, d, AckSteps(), OwnPrefix);
  }

  // The first process, when it serves.
  ghost predicate FirstServer(b: Pipe, c: Config, prefix: string) {
    && Unused(b) && b.j == Server(c.maxPending, 0) && b.book == map[] && b.answered == {}
    && b.removeQueryID == c.removeQueryID
    && b.retired == [] && b.syncs == [] && b.doneOk == [] && b.doneBad == []
    && b.live == WithPrefix(NewSender(true), prefix)
  }

  lemma FirstBoot(c: Config, prefix: string, backupPrefix: string)
    requires IsPrefix(prefix)
    ensures Settled(Untouched(c)) && OwnPrefix(Untouched(c), Start(prefix, backupPrefix))
    ensures FirstServer(Booted(Untouched(c), prefix, backupPrefix), c, prefix)
  {
    StartedEmpty(c.maxPending);
    hide Log, Tokens, BootSteps;
  }

  lemma FirstDelivery(
      b: Pipe, c: Config, prefix: string, req: nat, size: Positive, ins: Ins, response: string)
    requires FirstServer(b, c, prefix)
    ensures var d := DeliveredPipe(b, req, size, ins, response);
            && d.j == Appended(d.j.maxPending, 0, req, size) && d.live.worker == Storing([Item(1, req)])
            && d.live.hasJournal && AfterLife(AckedPipe(d, req, size), c, prefix, req, size, ins, response)
  {
    hide BatchMessage, DeliveredPipe, ReadsBack, DumpText, DumpName.FileName, DumpName.KindOf;
    DeliveredParts(b, req, size, ins, response);
    ReqsOne(Item(1, req));
    hide Reqs;
    assert {} + {req} == {req};
    assert map[][req := ins] == map[req := ins];
  }

  lemma NothingPending(maxPending: int, req: nat, size: Positive)
    ensures Log(Acknowledged(maxPending, req, size)) == []
  {
    var line := Line(Some(Record(1, req)), size);
    OneAcknowledged(line, 1);
    assert Tokens(File([line], None)) == [line];
  }

  lemma LifeHoldsNothing(
      p: Pipe, c: Config, prefix: string, req: nat, size: Positive, ins: Ins, response: string)
    requires AfterLife(p, c, prefix, req, size, ins, response)
    ensures Log(p.j) == [] && forall b | b in UnderWay(p) :: b == []
  {
    hide BatchMessage, DumpText, ReadsBack, Log, Acknowledged, FirstName;
    NothingPending(c.maxPending, req, size);
  }

  function LosingSteps(
      c: Config, prefix: string, backupPrefix: string, req: nat, size: Positive, ins: Ins, response: string): seq<Step>
  {
    var text := DumpText(BatchMessage(c.removeQueryID, [ins]), response);
    LifeSteps(prefix, backupPrefix, req, size, ins, response)
    + Spoolings(ReplayLabels(FirstName(prefix, response), text))
  }

  lemma LifeDump(
      p: Pipe, c: Config, prefix: string, req: nat, size: Positive, ins: Ins, response: string)
    requires AfterLife(p, c, prefix, req, size, ins, response)
    ensures var name, m := FirstName(prefix, response), BatchMessage(c.removeQueryID, [ins]);
            && Up(p.j) && name in p.live.origins && p.live.accepted == {}
            && (!ReadsBack(m, response) ==> OneFile(p.live, name, DumpText(m, response)))
  {
    hide BatchMessage, ReadsBack, DumpText, FirstName, D.Read, D.TellsAs;
    ReadsBackTells(BatchMessage(c.removeQueryID, [ins]), response);
  }

  // The replay at the end removes the file.
  lemma LifeIsLost(
      p: Pipe, c: Config, prefix: string, req: nat, size: Positive, ins: Ins, response: string)
    requires AfterLife(p, c, prefix, req, size, ins, response) && FirstName(prefix, response) in p.live.origins
    ensures var text := DumpText(BatchMessage(c.removeQueryID, [ins]), response);
            var q := ReplayedPipe(p, FirstName(prefix, response), text);
            && Lost(q, req) && q.book == map[req := ins]
            && q.live.dir.pending == map[] && q.live.dir.failed == map[]
  {
    LifeHoldsNothing(p, c, prefix, req, size, ins, response);
    hide BatchMessage, ReadsBack, DumpText, FirstName, D.Read, D.HasPayload, DumpName.IsClientError, Log, FileReqs;
    var q := ReplayedPipe(p, FirstName(prefix, response), DumpText(BatchMessage(c.removeQueryID, [ins]), response));
    NoFiles(q.live.origins);
    NoFiles(q.live.failedOrigins);
    assert UnderWay(q) == UnderWay(p);
  }

  lemma NoFiles(origins: map<string, Origin>)
    ensures FileReqs(origins, map[]) == {}
  {
  }

  /**
   The other half of AnsweredIsSafe: for every insert whose dump would not read back with some response of the server,
   as for every one whose content holds the response mark, there is a run, with a clean start-up and a dump prefix of
   its own, that answers it 200 and leaves it nowhere on the live side.
   */
  lemma AnsweredIsLost(
      c: Config, prefix: string, backupPrefix: string, req: nat, size: Positive, ins: Ins, response: string)
      returns (states: seq<Pipe>, steps: seq<Step>)
    requires IsPrefix(prefix) && IsPrefix(backupPrefix)
    requires !ReadsBack(BatchMessage(c.removeQueryID, [ins]), response)
    ensures PipeCompacted(states, steps, c) && Lost(states[|steps|], req)
    ensures states[|steps|].book == map[req := ins]
    ensures states[|steps|].live.dir.pending == map[] && states[|steps|].live.dir.failed == map[]
  {
    hide BatchMessage, ReadsBack, DumpText, FirstName, Lost, Run, Along, AfterLife, LifeSteps, Untouched;
    hide PipeCompacted, OneFile;
    hide ReplayedPipe, ReplayLabels, Spoolings;
    var life := LifeSteps(prefix, backupPrefix, req, size, ins, response);
    var name, text := FirstName(prefix, response), DumpText(BatchMessage(c.removeQueryID, [ins]), response);
    var p := LifeRuns(c, prefix, backupPrefix, req, size, ins, response);
    LifeDump(p, c, prefix, req, size, ins, response);
    LifeIsLost(p, c, prefix, req, size, ins, response);
    ReplayRuns(p, name, text);
    var replay, q := Spoolings(ReplayLabels(name, text)), ReplayedPipe(p, name, text);
    steps := LosingSteps(c, prefix, backupPrefix, req, size, ins, response);
    RunThen(Untouched(c), life, p, replay, q);
    AlongQuiet(p, replay, ServesClean);
    AlongQuiet(p, replay, OwnPrefix);
    AlongThen(Untouched(c), life, p, replay, ServesClean);
    AlongThen(Untouched(c), life, p, replay, OwnPrefix);
    states := StatesOf(c, steps, q);
  }

  // As an example, three rows of which the second is the mark, for any table, process and response.
  lemma MarkedRowsAreLost(
      c: Config, prefix: string, backupPrefix: string, req: nat, size: Positive, params: string, response: string)
      returns (states: seq<Pipe>, steps: seq<Step>)
    requires IsPrefix(prefix) && IsPrefix(backupPrefix)
    ensures PipeCompacted(states, steps, c) && Lost(states[|steps|], req)
    ensures states[|steps|].book == map[req := Ins(params, "1" + DumpCodec.MARK + "2", false)]
  {
    var ins := Ins(params, "1" + DumpCodec.MARK + "2", false);
    assert ins.content[1..1 + |DumpCodec.MARK|] == DumpCodec.MARK;
    assert Text.OccursAt(ins.content, DumpCodec.MARK, 1);
    InsertWithMark(c.removeQueryID, ins);
    MarkSpoils(BatchMessage(c.removeQueryID, [ins]), response);
    hide BatchMessage, ReadsBack;
    states, steps := AnsweredIsLost(c, prefix, backupPrefix, req, size, ins, response);
  }
}
