/**
 The delivery pipeline as a transition system over the journal: an accepted insert is appended to the WAL, pushed by its
 own goroutine into a table, flushed, queued to the live sender (and copied to the backup sender), sent or dumped, and
 acknowledged. Steps are cut where the code releases a lock or hands over to another goroutine; a crash can come after
 any of them. Inserts are identified by a request number; the book says what each of them is.
 */
module Pipeline {
  import opened Options
  import opened Wal
  import opened JournalMachine
  import opened Messages
  import DumpName
  import D = DumpDirectory

  // An insert in memory, with its journal id.
  datatype Item = Item(id: nat, req: nat)

  type Batch = seq<Item>

  // The goroutine that polls a sender's queue.
  datatype Worker =
    | Resting
    | Sending(b: Batch)
    | Dumping(b: Batch, status: nat, response: string)   // the send failed
    | Storing(b: Batch)                                  // the send, or the dump, succeeded

  // What a dump file was written for.
  datatype Origin = Origin(batch: Batch, message: Message)

  // One Clickhouse object with its dumper; accepted is what the server behind it has taken.
  datatype Sender = Sender(
    hasJournal: bool,
    queue: seq<Batch>, worker: Worker,
    prefix: string, dumpNum: nat, dir: D.Dir,
    accepted: set<nat>,
    origins: map<string, Origin>,        // history: what the files of the directory were written for
    failedOrigins: map<string, Origin>,  // history: the same of failed/
    prefixes: set<string>,               // history: the prefixes its dumpers have had
    spoiled: set<nat>,                   // history: inserts dumped in a text that does not read back
    enqueued: multiset<Batch>)           // history: what was handed to it in this process

  datatype SenderLabel =
    | Poll
    | SendOk
    | SendFail(status: nat, arrived: bool, response: string)   // an error, although the data may have arrived
    | DumpOk
    | DumpFail(partly: Option<string>)           // nothing, or part of the text, is in the file
    | Spooled(l: D.Label)                        // a step of ProcessNextDump or ReplayFailed
    | InVain(file: string, failed: bool, arrived: bool)    // a replay of a file, or of one in failed/, with an error

  datatype Target = Live | Backup

  datatype Pipe = Pipe(
    j: St<nat>,
    dual: bool, removeQueryID: bool,     // configuration
    live: Sender, backup: Sender,
    pushes: Batch,               // goroutines about to push
    tables: seq<Batch>,          // rows held by the collector's tables
    retired: seq<Batch>,         // tables CleanTables removed, whose timer may still fire once
    unsent: seq<Batch>,          // flush snapshots not yet handed to the sender
    copies: seq<Batch>,          // batches live has and backup has not yet
    syncs: Batch,                // synchronous inserts being sent
    doneOk: Batch, doneBad: Batch,    // synchronous inserts sent, or not, and not yet acknowledged
    replies: set<nat>,           // synchronous inserts sent and acknowledged, to be answered 200
    book: map<nat, Ins>,         // history: the inserts seen
    answered: set<nat>,          // history: requests answered 200
    excused: set<nat>)           // history: synchronous inserts that failed, which are not answered 200

  datatype Step =
    | Inner(l: Label<nat>)                       // a step inside the journal
    | Start(prefix: string, backupPrefix: string)    // a process starts: NewJournal, NewDumper
    | Begin(req: nat, size: Positive, ins: Ins)       // appendRecord entered
    | AcceptAsync | AcceptSync             // appendRecord returned to writeHandler, or to a synchronous handler
    | Replayed                             // ReplayUnacked
    | Push(i: nat, t: nat) | PushNew(i: nat) | PushOpaque(i: nat)
    | Flush(t: nat) | Clean(t: nat) | LateFlush(t: nat) | Forget(t: nat)
    | Send(u: nat) | SendCopy(u: nat)
    | Work(target: Target, sl: SenderLabel)
    | Settle(target: Target)               // ackJournal
    | SyncSent(i: nat) | SyncFailed(i: nat, status: nat, arrived: bool, response: string, dumped: bool)
    | SyncAckOk(i: nat) | SyncAckBad(i: nat) | Reply(req: nat)
    | Die(frag: Fragment)                  // the process crashes

  // ---------------------------------------------------------------- helpers

  function IdsOf(b: Batch): (ids: seq<nat>)
    ensures |ids| == |b|
  {
    seq(|b|, i requires 0 <= i < |b| => b[i].id)
  }

  function Reqs(b: Batch): set<nat> {
    set i | 0 <= i < |b| :: b[i].req
  }

  function Drop<T>(s: seq<T>, i: nat): seq<T>
    requires i < |s|
  {
    s[..i] + s[i + 1..]
  }

  const NO_PREFIX := "00000000000000"

  function NewSender(hasJournal: bool): Sender {
    Sender(hasJournal, [], Resting, NO_PREFIX, 0, D.Dir(map[], map[], {}, map[]), {}, map[], map[],
           {NO_PREFIX}, {}, multiset{})
  }

  function Book(book: map<nat, Ins>, req: nat): Ins {
    if req in book then book[req] else Ins("", "", false)
  }

  function Inserts(book: map<nat, Ins>, b: Batch): seq<Ins> {
    seq(|b|, i requires 0 <= i < |b| => Book(book, b[i].req))
  }

  function Held(w: Worker): Batch {
    if w.Resting? then [] else w.b
  }

  // ---------------------------------------------------------------- one sender

  predicate CanWork(s: Sender, l: SenderLabel) {
    match l
    case Poll => s.worker.Resting? && s.queue != []
    case SendOk => s.worker.Sending?
    case SendFail(_, _, _) => s.worker.Sending?
    case DumpOk => s.worker.Dumping?
    case DumpFail(_) => s.worker.Dumping?
    case Spooled(dl) => D.Enabled(s.dir, dl) && !dl.Wrote? && !dl.Pruned?
    case InVain(f, failed, _) => f in if failed then s.dir.failed else s.dir.pending
  }

  // The file says what it was written for.
  predicate Tells(origins: map<string, Origin>, f: string, text: string) {
    f in origins && D.TellsAs(D.Read(text), origins[f].message.params, origins[f].message.content)
  }

  // The inserts that a file tells: those a server has taken when it has taken what the file says.
  function ToldBy(origins: map<string, Origin>, files: map<string, string>, f: string): set<nat> {
    if f in files && Tells(origins, f, files[f]) then Reqs(origins[f].batch) else {}
  }

  // The file takes its origin along to failed/.
  function Carried(s: Sender, l: D.Label): map<string, Origin> {
    if !l.Moved? then s.failedOrigins
    else if l.file in s.origins then s.failedOrigins[l.file := s.origins[l.file]]
    else s.failedOrigins - {l.file}
  }

  function Taken(s: Sender, l: D.Label): set<nat> {
    if l.Sent? then ToldBy(s.origins, s.dir.pending, l.file)
    else if l.Retried? then ToldBy(s.failedOrigins, s.dir.failed, l.file)
    else {}
  }

  // Dump, with room for any number of files; a text cut short is written as well as it can be.
  function Dumped(s: Sender, b: Batch, m: Message, status: nat, text: string): Sender {
    var name := DumpName.FileName(s.prefix, s.dumpNum + 1, DumpName.KindOf(status), status);
    s.(dumpNum := s.dumpNum + 1, dir := D.Apply(s.dir, D.Wrote(name, text)), origins := s.origins[name := Origin(b, m)])
  }

  function DumpedWhole(s: Sender, b: Batch, m: Message, status: nat, response: string): Sender {
    Dumped(s, b, m, status, DumpText(m, response)).(
      spoiled := if ReadsBack(m, response) then s.spoiled else s.spoiled + Reqs(b))
  }

  // One step of the sender, m being the message of the batch its worker holds.
  function WorkOn(s: Sender, l: SenderLabel, m: Message): Sender
    requires CanWork(s, l)
  {
    match l
    case Poll => s.(worker := Sending(s.queue[0]), queue := s.queue[1..])
    case SendOk => s.(accepted := s.accepted + Reqs(s.worker.b), worker := Storing(s.worker.b))
    case SendFail(status, arrived, response) =>
      s.(accepted := if arrived then s.accepted + Reqs(s.worker.b) else s.accepted,
         worker := Dumping(s.worker.b, status, response))
    case DumpOk => DumpedWhole(s, s.worker.b, m, s.worker.status, s.worker.response).(worker := Storing(s.worker.b))
    case DumpFail(partly) =>
      (if partly.Some? then Dumped(s, s.worker.b, m, s.worker.status, partly.value)
       else s.(dumpNum := s.dumpNum + 1)).(worker := Resting)
    case Spooled(dl) =>
      s.(dir := D.Apply(s.dir, dl), failedOrigins := Carried(s, dl), accepted := s.accepted + Taken(s, dl))
    case InVain(f, failed, arrived) =>
      var told := if failed then ToldBy(s.failedOrigins, s.dir.failed, f) else ToldBy(s.origins, s.dir.pending, f);
      s.(accepted := if arrived then s.accepted + told else s.accepted)
  }

  function Enqueue(s: Sender, b: Batch): Sender {
    s.(queue := s.queue + [b], enqueued := s.enqueued + multiset{b})
  }

  // A crash keeps what is on disk and what the server has.
  function Restarted(s: Sender): Sender {
    s.(queue := [], worker := Resting, enqueued := multiset{}, dir := s.dir.(locked := {}, sent := map[]))
  }

  // NewDumper, at the start of a process.
  function WithPrefix(s: Sender, prefix: string): Sender {
    s.(prefix := prefix, dumpNum := 0, prefixes := s.prefixes + {prefix})
  }

  function Get(p: Pipe, t: Target): Sender {
    if t.Live? then p.live else p.backup
  }

  function Put(p: Pipe, t: Target, s: Sender): Pipe {
    if t.Live? then p.(live := s) else p.(backup := s)
  }

  // ---------------------------------------------------------------- the whole

  // The journal step inside a pipeline step, if there is one. The worker acknowledges only if its sender has a journal.
  function Inside(p: Pipe, s: Step): Option<Label<nat>> {
    match s
    case Inner(l) => Some(l)
    case Start(_, _) => Some(Open)
    case Begin(req, size, _) => Some(AppendBegin(req, size))
    case AcceptAsync => Some(Return)
    case AcceptSync => Some(Return)
    case Replayed => Some(Replay)
    case Settle(t) =>
      var b := Held(Get(p, t).worker);
      if Get(p, t).hasJournal && b != [] then Some(AckBegin(IdsOf(b))) else None
    case SyncAckOk(i) => if i < |p.doneOk| then Some(AckBegin([p.doneOk[i].id])) else None
    case SyncAckBad(i) => if i < |p.doneBad| then Some(AckBegin([p.doneBad[i].id])) else None
    case Die(frag) => Some(Crash(frag))
    case _ => None
  }

  predicate Private(l: Label<nat>) {
    !l.Open? && !l.AppendBegin? && !l.Return? && !l.Replay? && !l.AckBegin? && !l.Crash?
  }

  // The insert goes into a table with these.
  predicate Joins(p: Pipe, i: nat, b: Batch)
    requires i < |p.pushes|
  {
    var ins := Book(p.book, p.pushes[i].req);
    !ins.verbatim && forall k | 0 <= k < |b| :: SameTable(p.removeQueryID, ins, Book(p.book, b[k].req))
  }

  predicate Can(p: Pipe, s: Step) {
    && (Inside(p, s).Some? ==> Enabled(p.j, Inside(p, s).value))
    && (!s.Inner? && !s.Start? ==> Up(p.j))
    && match s
       case Inner(l) => Private(l) && (l.CompactBegin? ==> p.j.stage.Replayed? || p.j.stage.Serving?)
       case Start(prefix, backupPrefix) =>
         |prefix| == 14 == |backupPrefix| && DumpName.AllDigits(prefix) && DumpName.AllDigits(backupPrefix)
       case Begin(req, _, _) => req !in p.book
       case AcceptAsync => p.j.phase.line.parsed.Some?
       case AcceptSync => p.j.phase.line.parsed.Some?
       case Push(i, t) => i < |p.pushes| && t < |p.tables| && Joins(p, i, p.tables[t])
       case PushNew(i) => i < |p.pushes| && Joins(p, i, [])
       case PushOpaque(i) => i < |p.pushes| && Book(p.book, p.pushes[i].req).verbatim
       case Flush(t) => t < |p.tables| && p.tables[t] != []
       case Clean(t) => t < |p.tables|
       case LateFlush(t) => t < |p.retired| && p.retired[t] != []
       case Forget(t) => t < |p.retired|
       case Send(u) => u < |p.unsent|
       case SendCopy(u) => u < |p.copies|
       case Work(t, sl) => CanWork(Get(p, t), sl)
       case Settle(t) => Get(p, t).worker.Storing?
       case SyncSent(i) => i < |p.syncs|
       case SyncFailed(i, _, _, _, _) => i < |p.syncs|
       case SyncAckOk(i) => i < |p.doneOk|
       case SyncAckBad(i) => i < |p.doneBad|
       case Reply(req) => req in p.replies
       case _ => true
  }

  // The record under way in appendRecord.
  function Current(p: Pipe): Record<nat>
    requires p.j.phase.Written? && p.j.phase.line.parsed.Some?
  {
    p.j.phase.line.parsed.value
  }

  function ToItem(r: Record<nat>): Item {
    Item(r.id, r.payload)
  }

  function ToItems(log: seq<Record<nat>>): Batch {
    seq(|log|, i requires 0 <= i < |log| => ToItem(log[i]))
  }

  function CopyTo(p: Pipe, b: Batch): seq<Batch> {
    if p.dual then p.copies + [b] else p.copies
  }

  // The journal after the step; the rest of the pipeline follows.
  function JournalAfter(p: Pipe, s: Step): St<nat>
    requires Can(p, s)
  {
    if Inside(p, s).Some? then Apply(p.j, Inside(p, s).value) else p.j
  }

  function Do(p: Pipe, s: Step): Pipe
    requires Can(p, s)
  {
    Rest(p, s).(j := JournalAfter(p, s))
  }

  // A synchronous insert that was sent: backup gets a copy.
  function SentNow(p: Pipe, i: nat): Pipe
    requires i < |p.syncs|
  {
    var b := [p.syncs[i]];
    p.(syncs := Drop(p.syncs, i), doneOk := p.doneOk + b,
       live := p.live.(accepted := p.live.accepted + Reqs(b), enqueued := p.live.enqueued + multiset{b}),
       copies := CopyTo(p, b))
  }

  // One that was not; its dump may fail too.
  function FailedNow(p: Pipe, i: nat, status: nat, arrived: bool, response: string, dumped: bool): Pipe
    requires i < |p.syncs|
  {
    var b := [p.syncs[i]];
    var live := p.live.(accepted := if arrived then p.live.accepted + Reqs(b) else p.live.accepted);
    p.(syncs := Drop(p.syncs, i), doneBad := p.doneBad + b, excused := p.excused + {p.syncs[i].req},
       live := if dumped then DumpedWhole(live, b, SyncMessage(Book(p.book, p.syncs[i].req)), status, response)
               else live)
  }

  predicate OfTables(s: Step) {
    s.Push? || s.PushNew? || s.PushOpaque? || s.Flush? || s.Clean? || s.LateFlush? || s.Forget?
  }

  // The steps of the goroutines that push, and of the tables.
  function Tabled(p: Pipe, s: Step): Pipe
    requires Can(p, s) && OfTables(s)
  {
    match s
    case Push(i, t) => p.(pushes := Drop(p.pushes, i), tables := p.tables[t := p.tables[t] + [p.pushes[i]]])
    case PushNew(i) => p.(pushes := Drop(p.pushes, i), tables := p.tables + [[p.pushes[i]]])
    case PushOpaque(i) => p.(pushes := Drop(p.pushes, i), unsent := p.unsent + [[p.pushes[i]]])
    case Flush(t) => p.(tables := p.tables[t := []], unsent := p.unsent + [p.tables[t]])
    case Clean(t) => p.(tables := Drop(p.tables, t), retired := p.retired + [p.tables[t]])
    case LateFlush(t) => p.(retired := Drop(p.retired, t), unsent := p.unsent + [p.retired[t]])
    case Forget(t) => p.(retired := Drop(p.retired, t))
  }

  function Rest(p: Pipe, s: Step): Pipe
    requires Can(p, s)
  {
    match s
    case Inner(_) => p
    case Start(prefix, backupPrefix) =>
      p.(live := WithPrefix(p.live, prefix), backup := if p.dual then WithPrefix(p.backup, backupPrefix) else p.backup)
    case Begin(req, _, ins) => p.(book := p.book[req := ins])
    case AcceptAsync => p.(pushes := p.pushes + [ToItem(Current(p))], answered := p.answered + {Current(p).payload})
    case AcceptSync => p.(syncs := p.syncs + [ToItem(Current(p))])
    case Replayed => p.(pushes := p.pushes + ToItems(ReplayedRecords(p.j)))
    case Send(u) =>
      p.(unsent := Drop(p.unsent, u), live := Enqueue(p.live, p.unsent[u]), copies := CopyTo(p, p.unsent[u]))
    case SendCopy(u) => p.(copies := Drop(p.copies, u), backup := Enqueue(p.backup, p.copies[u]))
    case Work(t, sl) =>
      Put(p, t, WorkOn(Get(p, t), sl, BatchMessage(p.removeQueryID, Inserts(p.book, Held(Get(p, t).worker)))))
    case Settle(t) => Put(p, t, Get(p, t).(worker := Resting))
    case SyncSent(i) => SentNow(p, i)
    case SyncFailed(i, status, arrived, response, dumped) => FailedNow(p, i, status, arrived, response, dumped)
    case SyncAckOk(i) => p.(doneOk := Drop(p.doneOk, i), replies := p.replies + {p.doneOk[i].req})
    case SyncAckBad(i) => p.(doneBad := Drop(p.doneBad, i))
    case Reply(req) => p.(replies := p.replies - {req}, answered := p.answered + {req})
    case Die(_) =>
      Pipe(p.j, p.dual, p.removeQueryID, Restarted(p.live), Restarted(p.backup), [], [], [], [], [], [], [], [], {},
           p.book, p.answered, p.excused)
    case _ => Tabled(p, s)
  }

  function Init(maxPending: int, dual: bool, removeQueryID: bool): Pipe {
    Pipe(NewProcess(File([], None), [], maxPending), dual, removeQueryID, NewSender(true), NewSender(false),
         [], [], [], [], [], [], [], [], {}, map[], {}, {})
  }

  // Every append begins in a safe state of the journal, which a start-up compaction that finished makes it; and every
  // process has a dump prefix of its own, as it has when it starts in a second of its own.
  predicate Heedful(p: Pipe, s: Step) {
    (s.Begin? ==> SafeToAppend(p.j)) && OwnPrefix(p, s)
  }

  predicate OwnPrefix(p: Pipe, s: Step) {
    s.Start? ==> s.prefix !in p.live.prefixes
  }

  ghost predicate PipeRun(states: seq<Pipe>, steps: seq<Step>) {
    && |states| == |steps| + 1
    && forall i | 0 <= i < |steps| :: Can(states[i], steps[i]) && states[i + 1] == Do(states[i], steps[i])
  }

  // What the configuration says.
  datatype Config = Config(maxPending: int, dual: bool, removeQueryID: bool)

  ghost predicate PipeFromEmpty(states: seq<Pipe>, steps: seq<Step>, c: Config) {
    PipeRun(states, steps) && states[0] == Init(c.maxPending, c.dual, c.removeQueryID)
  }

  // The journal belongs to the live sender.
  predicate Roles(p: Pipe) {
    p.live.hasJournal && !p.backup.hasJournal
  }

  lemma RolesKept(p: Pipe, s: Step)
    requires Can(p, s) && Roles(p)
    ensures Roles(Do(p, s)) && Do(p, s).dual == p.dual && Do(p, s).removeQueryID == p.removeQueryID
  {
    hide Enabled, Apply, Inside, Up, Joins, WorkOn, CanWork, BatchMessage, SyncMessage, ReadsBack, DumpText, Tabled;
    hide FailedNow, Reqs, Drop, CopyTo, ToItems, Restarted;
    if OfTables(s) {
      TabledAside(p, s);
    }
    if s.SyncFailed? {
      FailedMoves(p, s.i, s.status, s.arrived, s.response, s.dumped);
    }
    if s.Die? {
      RestartedRole(p.live);
      RestartedRole(p.backup);
    }
    if s.Work? {
      var h := Get(p, s.target);
      WorkKeepsRole(h, s.sl, BatchMessage(p.removeQueryID, Inserts(p.book, Held(h.worker))));
    }
  }

  lemma RestartedRole(s: Sender)
    ensures Restarted(s).hasJournal == s.hasJournal
  {
  }

  lemma WorkKeepsRole(s: Sender, l: SenderLabel, m: Message)
    requires CanWork(s, l)
    ensures WorkOn(s, l, m).hasJournal == s.hasJournal && WorkOn(s, l, m).enqueued == s.enqueued
    ensures WorkOn(s, l, m).prefixes == s.prefixes
  {
    hide ReadsBack, DumpText, D.Apply, D.Enabled, Reqs, Taken, Carried, ToldBy, DumpName.FileName;
  }

  // What a step of a sender does to the batches it has.
  lemma WorkMoves(s: Sender, l: SenderLabel, m: Message)
    requires CanWork(s, l)
    ensures var t := WorkOn(s, l, m);
            if l.Poll? then
              s.worker.Resting? && s.queue != [] && t.worker == Sending(s.queue[0]) && t.queue == s.queue[1..]
            else
              && t.queue == s.queue && Held(t.worker) == (if l.DumpFail? then [] else Held(s.worker))
              && (s.worker.Resting? ==> t.worker.Resting?)
    ensures WorkOn(s, l, m).spoiled
         == if l.DumpOk? && !ReadsBack(m, s.worker.response) then s.spoiled + Reqs(s.worker.b) else s.spoiled
  {
    hide ReadsBack, DumpText, D.Apply, D.Enabled, Reqs, Taken, Carried, ToldBy, DumpName.FileName;
  }

  // What a synchronous insert that failed changes: nothing of the batches that live has.
  lemma FailedMoves(p: Pipe, i: nat, status: nat, arrived: bool, response: string, dumped: bool)
    requires i < |p.syncs|
    ensures var q := FailedNow(p, i, status, arrived, response, dumped);
            && q == p.(syncs := Drop(p.syncs, i), doneBad := p.doneBad + [p.syncs[i]],
                       excused := p.excused + {p.syncs[i].req}, live := q.live)
            && q.live.queue == p.live.queue && q.live.worker == p.live.worker && q.live.hasJournal == p.live.hasJournal
            && q.live.enqueued == p.live.enqueued
    ensures FailedNow(p, i, status, arrived, response, dumped).live.spoiled
         == if dumped && !ReadsBack(SyncMessage(Book(p.book, p.syncs[i].req)), response)
            then p.live.spoiled + Reqs([p.syncs[i]]) else p.live.spoiled
  {
    hide ReadsBack, DumpText, D.Apply, Reqs, DumpName.FileName, SyncMessage, Drop;
  }

  // The steps of the tables change nothing but the goroutines that push, the tables and the snapshots.
  lemma TabledAside(p: Pipe, s: Step)
    requires Can(p, s) && OfTables(s)
    ensures var q := Tabled(p, s);
            q == p.(pushes := q.pushes, tables := q.tables, retired := q.retired, unsent := q.unsent)
    ensures Inside(p, s).None?
  {
    hide Enabled, Up, Joins, Drop;
  }
}
