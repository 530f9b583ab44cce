/**
 The journal as a transition system.

 Every step is one I/O action or one in-memory update made while the journal's mutex is held, so a process crash or an
 I/O error can fall between any two of them. The disk is the WAL file and the acknowledgement file; everything else is
 lost in a crash. Which I/O action fails, how much of a write reaches the file and whether five seconds have passed are
 chosen by the label.
 */
module JournalMachine {
  import opened Options
  import opened Wal

  const MIN_ACKS := 100  // acknowledgements that force a compaction

  // The buffered writer of the WAL: usable, stuck on an earlier write error, or not there.
  datatype Writer = Ready | Stuck | Closed

  // How far a process has come: not running, NewJournal returned, ReplayUnacked returned, serving requests.
  datatype Stage = Off | Opened | Replayed | Serving

  // Where the holder of the mutex is; Idle when nobody holds it.
  datatype Phase<+P> =
    | Idle
    | Writing(line: Filled<P>)               // appendRecord: id taken, nothing written
    | Written(line: Filled<P>)               // appendRecord: the line is in the file
    | Acking(todo: seq<nat>, wrote: nat)     // Ack: inside the loop
    | Starting                               // compactLocked: entered
    | Staged(kept: seq<Line<P>>)             // compactLocked: temporary file complete
    | Detached(kept: seq<Line<P>>)           // compactLocked: WAL handle and writer dropped
    | Renamed(kept: seq<Line<P>>)            // compactLocked: temporary file is the WAL
    | Reopened(kept: seq<Line<P>>)           // compactLocked: openWAL succeeded
    | Cleared                                // compactLocked: counters reset
    | AckClosed                              // resetAckFileLocked: handle closed
    | AckEmptied                             // resetAckFileLocked: file truncated

  datatype St<+P> = St(
    wal: File<P>, ack: seq<nat>,                                    // on disk
    maxPending: int,                                                // configuration
    acked: set<nat>, nextID: nat, pendingCount: int,                // fields of Journal
    acksSince: nat, writer: Writer,
    phase: Phase<P>,                                                // control
    stage: Stage,
    clean: bool,                                                    // history: a compaction finished since start
    uncounted: int)                                                 // history: lines written by failed appends

  datatype Label<+P> =
    | Open | Replay | Serve
    | Crash(frag: Fragment)
    | AppendBegin(payload: P, size: Positive)
    | Write | WriteFail(partly: Fragment) | Return | SyncFail
    | AckBegin(ids: seq<nat>) | AckNext | AckFail | AckEnd(elapsed: bool) | AckSyncFail
    | CompactBegin | Scan | Detach | Rename | Reopen | Clear | CloseAck | EmptyAck | OpenAck | Abort

  function NewProcess<P>(wal: File<P>, ack: seq<nat>, maxPending: int): St<P> {
    St(wal, ack, maxPending, {}, 0, 0, 0, Closed, Idle, Off, false, 0)
  }

  function AckSet(ack: seq<nat>): set<nat> {
    set i | 0 <= i < |ack| :: ack[i]
  }

  // The pending records as the disk alone tells them.
  function Log<P>(s: St<P>): seq<Record<P>> {
    Unacked(Tokens(s.wal), AckSet(s.ack))
  }

  // What ReplayUnacked hands to its callback.
  function ReplayedRecords<P>(s: St<P>): seq<Record<P>> {
    Unacked(Tokens(s.wal), s.acked)
  }

  predicate Compacting<P>(p: Phase<P>) {
    p.Starting? || p.Staged? || p.Detached? || p.Renamed? || p.Reopened? || p.Cleared? || p.AckClosed? || p.AckEmptied?
  }

  predicate Up<P>(s: St<P>) {
    !s.stage.Off?
  }

  // The ack of this id writes a line; otherwise the loop skips it.
  predicate Fresh<P>(s: St<P>, id: nat) {
    id != 0 && id !in s.acked
  }

  predicate Enabled<P>(s: St<P>, l: Label<P>) {
    match l
    case Open => s.stage.Off? && Fits(Tokens(s.wal), SCAN_LIMIT)
    case Replay => s.stage.Opened? && s.phase.Idle? && !s.writer.Stuck? && Fits(Tokens(s.wal), REPLAY_LIMIT)
    case Serve => s.stage.Replayed? && s.phase.Idle?
    case Crash(frag) => Up(s) && (!frag.Nothing? ==> s.phase.Writing? && s.writer.Ready?)
    case AppendBegin(_, _) =>
      s.stage.Serving? && s.phase.Idle? && !(s.maxPending > 0 && s.pendingCount >= s.maxPending)
    case Write => s.phase.Writing? && s.writer.Ready?
    case WriteFail(partly) => s.phase.Writing? && (!partly.Nothing? ==> s.writer.Ready?)
    case Return => s.phase.Written?
    case SyncFail => s.phase.Written?
    case AckBegin(_) => Up(s) && s.phase.Idle?
    case AckNext => s.phase.Acking? && s.phase.todo != []
    case AckFail => s.phase.Acking? && s.phase.todo != []
    case AckEnd(_) => s.phase.Acking? && s.phase.todo == []
    case AckSyncFail => s.phase.Acking? && s.phase.todo == [] && s.phase.wrote > 0
    case CompactBegin => Up(s) && s.phase.Idle?
    case Scan => s.phase.Starting? && !s.writer.Stuck? && Fits(Tokens(s.wal), REPLAY_LIMIT)
    case Detach => s.phase.Staged?
    case Rename => s.phase.Detached?
    case Reopen => s.phase.Renamed? && Fits(Tokens(s.wal), SCAN_LIMIT)
    case Clear => s.phase.Reopened?
    case CloseAck => s.phase.Cleared?
    case EmptyAck => s.phase.AckClosed?
    case OpenAck => s.phase.AckEmptied?
    case Abort => Compacting(s.phase)
  }

  // Whether the end of Ack runs a compaction.
  predicate CompactionDue(acksSince: nat, elapsed: bool) {
    acksSince >= MIN_ACKS || elapsed
  }

  function Apply<P>(s: St<P>, l: Label<P>): St<P>
    requires Enabled(s, l)
  {
    match l
    case Open =>
      var ts := Tokens(s.wal);
      var acked := AckSet(s.ack);
      s.(acked := acked, nextID := MaxId(ts, 0), pendingCount := |Unacked(ts, acked)|, acksSince := 0,
         writer := Ready, stage := Opened, clean := false, uncounted := 0)
    case Replay => s.(stage := Replayed)
    case Serve => s.(stage := Serving)
    case Crash(frag) =>
      NewProcess(if s.phase.Writing? then WriteFragment(s.wal, s.phase.line, frag) else s.wal, s.ack, s.maxPending)
    case AppendBegin(payload, size) =>
      s.(nextID := s.nextID + 1, phase := Writing(Line(Some(Record(s.nextID + 1, payload)), size)))
    case Write => s.(wal := WriteLine(s.wal, s.phase.line), phase := Written(s.phase.line))
    case WriteFail(partly) =>
      var wal := WriteFragment(s.wal, s.phase.line, partly);
      s.(wal := wal, writer := if s.writer.Ready? then Stuck else s.writer, phase := Idle,
         uncounted := s.uncounted + (if partly.AllButNewline? then 1 else 0))
    case Return => s.(pendingCount := s.pendingCount + 1, phase := Idle)
    case SyncFail => s.(phase := Idle, uncounted := s.uncounted + 1)
    case AckBegin(ids) => s.(phase := Acking(ids, 0))
    case AckNext =>
      var id, rest := s.phase.todo[0], s.phase.todo[1..];
      if Fresh(s, id) then
        s.(ack := s.ack + [id], acked := s.acked + {id}, pendingCount := s.pendingCount - 1,
           phase := Acking(rest, s.phase.wrote + 1))
      else s.(phase := Acking(rest, s.phase.wrote))
    case AckFail => s.(phase := Idle)
    case AckEnd(elapsed) =>
      var n := s.acksSince + s.phase.wrote;
      s.(acksSince := n,
         phase := if s.phase.wrote > 0 && CompactionDue(n, elapsed) then Starting else Idle)
    case AckSyncFail => s.(acksSince := s.acksSince + s.phase.wrote, phase := Idle)
    case CompactBegin => s.(phase := Starting)
    case Scan => s.(phase := Staged(Keep(Tokens(s.wal), s.acked)))
    case Detach => s.(writer := Closed, phase := Detached(s.phase.kept))
    case Rename => s.(wal := File(s.phase.kept, None), phase := Renamed(s.phase.kept))
    case Reopen => s.(nextID := MaxId(Tokens(s.wal), s.nextID), phase := Reopened(s.phase.kept))
    case Clear =>
      s.(writer := Ready, acked := {}, pendingCount := |s.phase.kept|, acksSince := 0, phase := Cleared,
         uncounted := 0)
    case CloseAck => s.(phase := AckClosed)
    case EmptyAck => s.(ack := [], phase := AckEmptied, clean := true)
    case OpenAck => s.(phase := Idle)
    case Abort => s.(phase := Idle)
  }

  // ---------------------------------------------------------------- the plain log it stands for

  datatype Event<+P> = Silent | Logged(r: Record<P>) | Acked(id: nat)

  // A record is logged when its whole JSON text is in the file, acknowledged when its id is in the ack file.
  function EventOf<P>(s: St<P>, l: Label<P>): Event<P>
    requires Enabled(s, l)
  {
    match l
    case Write => if s.phase.line.parsed.Some? then Logged(s.phase.line.parsed.value) else Silent
    case WriteFail(AllButNewline) => if s.phase.line.parsed.Some? then Logged(s.phase.line.parsed.value) else Silent
    case Crash(AllButNewline) => if s.phase.line.parsed.Some? then Logged(s.phase.line.parsed.value) else Silent
    case AckNext => if Fresh(s, s.phase.todo[0]) then Acked(s.phase.todo[0]) else Silent
    case _ => Silent
  }

  function LogStep<P>(log: seq<Record<P>>, e: Event<P>): seq<Record<P>> {
    match e
    case Silent => log
    case Logged(r) => log + [r]
    case Acked(id) => Without(log, id)
  }

  // ---------------------------------------------------------------- invariant

  ghost predicate PhaseInv<P>(s: St<P>) {
    var ts := Tokens(s.wal);
    match s.phase
    case Writing(line) =>
      s.stage.Serving? && line.parsed.Some? && line.parsed.value.id == s.nextID
      && s.nextID > 0 && s.nextID !in Ids(ts) && s.nextID !in AckSet(s.ack)
      && (s.wal.tail.None? || !s.writer.Ready?)
    case Written(line) => s.stage.Serving? && ts != [] && ts[|ts| - 1] == line && line.parsed.Some?
      && line.parsed.value.id !in AckSet(s.ack)
    case Staged(kept) => kept == Keep(ts, s.acked) && !s.writer.Stuck?
    case Detached(kept) => kept == Keep(ts, s.acked) && s.writer.Closed?
    case Renamed(kept) => s.wal == File(kept, None) && Ids(ts) !! s.acked && s.writer.Closed?
    case Reopened(kept) => s.wal == File(kept, None) && Ids(ts) !! s.acked && s.writer.Closed?
    case Cleared => s.wal.tail.None? && s.acked == {}
    case AckClosed => s.wal.tail.None? && s.acked == {}
    case _ => true
  }

  // What holds while a process runs: disk and memory agree on the ids that matter.
  ghost predicate UpInv<P>(s: St<P>) {
    var ts := Tokens(s.wal);
    && (forall id | id in Ids(ts) :: id <= s.nextID)
    && (forall id | id in Ids(ts) :: id in s.acked <==> id in AckSet(s.ack))
    && s.acked <= AckSet(s.ack)
    && PhaseInv(s)
  }

  ghost predicate Inv<P>(s: St<P>) {
    && Increasing(Tokens(s.wal))
    && 0 !in Ids(Tokens(s.wal))
    && (if Up(s) then UpInv(s) else s.phase.Idle?)
  }

  // No stale acknowledgement waits for the next id, and no unterminated line waits to swallow the next one.
  predicate SafeToAppend<P>(s: St<P>) {
    s.nextID + 1 !in AckSet(s.ack) && (s.wal.tail.None? || !s.writer.Ready?)
  }

  predicate Careful<P>(s: St<P>, l: Label<P>) {
    l.AppendBegin? ==> SafeToAppend(s)
  }

  // What its callers owe the journal: they acknowledge ids it has given out.
  predicate Modest<P>(s: St<P>, l: Label<P>) {
    l.AckBegin? ==> forall i | 0 <= i < |l.ids| :: l.ids[i] <= s.nextID
  }

  // What a finished compaction establishes for the rest of the process's life.
  ghost predicate CleanInv<P>(s: St<P>) {
    && (s.clean ==> Up(s))
    && (s.clean ==> forall id | id in AckSet(s.ack) :: id <= s.nextID)
    && (s.clean && s.phase.Acking? ==> forall i | 0 <= i < |s.phase.todo| :: s.phase.todo[i] <= s.nextID)
    && (s.clean ==> s.wal.tail.None? || s.writer.Stuck?)
  }
}
