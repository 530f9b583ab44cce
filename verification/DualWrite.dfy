/** Dual write: what the backup sender can and cannot do to the live side, and what it is given. */
module DualWrite {
  import opened JournalMachine
  import opened Messages
  import opened Pipeline

  // The steps that belong to the backup sender alone.
  predicate OfBackup(s: Step) {
    s.SendCopy? || ((s.Work? || s.Settle?) && s.target.Backup?)
  }

  // The pipeline with no backup configured.
  function Erase(p: Pipe): Pipe {
    p.(dual := false, backup := NewSender(false), copies := [])
  }

  // A backup step is invisible from the live side.
  lemma BackupStep(p: Pipe, s: Step)
    requires Can(p, s) && OfBackup(s) && Roles(p)
    ensures Erase(Do(p, s)) == Erase(p)
  {
  }

  lemma StillCan(p: Pipe, s: Step)
    requires Can(p, s) && !OfBackup(s)
    ensures Can(Erase(p), s) && Inside(Erase(p), s) == Inside(p, s)
  {
    hide Enabled, CanWork, SameTable, Book;
  }

  // Any other step is possible, with the same effect, when there is no backup.
  lemma LiveStep(p: Pipe, s: Step)
    requires Can(p, s) && !OfBackup(s)
    ensures Can(Erase(p), s) && Erase(Do(p, s)) == Do(Erase(p), s)
  {
    StillCan(p, s);
    hide Can, Do, Erase;
    if OfTables(s) {
      LiveTabled(p, s);
    } else {
      LiveElse(p, s);
    }
  }

  lemma LiveTabled(p: Pipe, s: Step)
    requires Can(p, s) && OfTables(s) && Can(Erase(p), s)
    ensures Erase(Do(p, s)) == Do(Erase(p), s)
  {
    hide Can, Drop;
  }

  lemma LiveElse(p: Pipe, s: Step)
    requires Can(p, s) && !OfTables(s) && !OfBackup(s) && Can(Erase(p), s) && Inside(Erase(p), s) == Inside(p, s)
    ensures Erase(Do(p, s)) == Do(Erase(p), s)
  {
    hide Can, Enabled, Apply, WorkOn, CanWork, BatchMessage, DumpedWhole, Drop, Reqs, Tabled, Inside;
  }

  function WithoutBackup(steps: seq<Step>): seq<Step> {
    if steps == [] then []
    else
      var rest, s := WithoutBackup(steps[..|steps| - 1]), steps[|steps| - 1];
      if OfBackup(s) then rest else rest + [s]
  }

  /**
   Non-interference: take the backup steps out of any run with two senders, and what is left is a run with one, from the
   same start to the same journal, live queue, live dumps, acknowledgements and answers.
   */
  lemma {:induction false} BackupErased(states: seq<Pipe>, steps: seq<Step>) returns (single: seq<Pipe>)
    requires PipeRun(states, steps) && Roles(states[0])
    ensures PipeRun(single, WithoutBackup(steps))
    ensures single[0] == Erase(states[0]) && single[|single| - 1] == Erase(states[|steps|])
    ensures Roles(states[|steps|])
  {
    hide Can, Do, Erase, Roles, OfBackup;
    if steps == [] {
      single := [Erase(states[0])];
    } else {
      var k := |steps| - 1;
      var before := BackupErased(states[..k + 1], steps[..k]);
      RolesKept(states[k], steps[k]);
      if OfBackup(steps[k]) {
        BackupStep(states[k], steps[k]);
        single := before;
      } else {
        LiveStep(states[k], steps[k]);
        single := before + [Erase(states[k + 1])];
      }
    }
  }

  // With two senders, what backup has been handed and what waits to be copied is what live has been handed.
  predicate SameBatches(p: Pipe) {
    p.dual ==> p.live.enqueued == p.backup.enqueued + multiset(p.copies)
  }

  lemma DropMultiset<T>(s: seq<T>, i: nat)
    requires i < |s|
    ensures multiset(s) == multiset(Drop(s, i)) + multiset{s[i]}
  {
    assert s == s[..i] + [s[i]] + s[i + 1..];
  }

  lemma SameBatchesStep(p: Pipe, s: Step)
    requires Can(p, s) && SameBatches(p)
    ensures SameBatches(Do(p, s))
  {
    if s.Send? || s.SendCopy? || s.SyncSent? {
      HandedOver(p, s);
    } else if !s.Die? {
      hide Can, Do;
      NothingHandedOver(p, s);
    }
  }

  lemma HandedOver(p: Pipe, s: Step)
    requires Can(p, s) && SameBatches(p) && (s.Send? || s.SendCopy? || s.SyncSent?)
    ensures SameBatches(Do(p, s))
  {
    hide Drop, Up, Reqs;
    match s {
      case Send(u) => AddMultiset(p.copies, p.unsent[u]);
      case SendCopy(u) => DropMultiset(p.copies, u);
      case SyncSent(i) => AddMultiset(p.copies, [p.syncs[i]]);
    }
  }

  lemma NothingHandedOver(p: Pipe, s: Step)
    requires Can(p, s) && !s.Send? && !s.SendCopy? && !s.SyncSent? && !s.Die?
    ensures var q := Do(p, s);
            && q.dual == p.dual && q.copies == p.copies
            && q.live.enqueued == p.live.enqueued && q.backup.enqueued == p.backup.enqueued
  {
    hide Enabled, Apply, Drop, Up, Inside, Reqs, WorkOn, CanWork, BatchMessage, FailedNow, Joins;
    if s.Work? {
      var h := Get(p, s.target);
      WorkKeepsRole(h, s.sl, BatchMessage(p.removeQueryID, Inserts(p.book, Pipeline.Held(h.worker))));
    }
    if s.SyncFailed? {
      FailedMoves(p, s.i, s.status, s.arrived, s.response, s.dumped);
    }
  }

  lemma AddMultiset<T>(s: seq<T>, x: T)
    ensures multiset(s + [x]) == multiset(s) + multiset{x}
  {
  }

  /** Every batch live gets in a process, by its queue or synchronously, goes to backup with the same content, once. */
  lemma {:induction false} BackupGetsTheSame(
      states: seq<Pipe>, steps: seq<Step>, c: Config, n: nat)
    requires PipeFromEmpty(states, steps, c) && n <= |steps|
    ensures SameBatches(states[n]) && states[n].dual == c.dual && Roles(states[n])
  {
    hide Can, Do, Roles, SameBatches;
    if n == 0 {
      StartsSame(c);
    } else {
      BackupGetsTheSame(states, steps, c, n - 1);
      SameBatchesStep(states[n - 1], steps[n - 1]);
      RolesKept(states[n - 1], steps[n - 1]);
    }
  }

  lemma StartsSame(c: Config)
    ensures var p := Init(c.maxPending, c.dual, c.removeQueryID); SameBatches(p) && Roles(p)
  {
  }
}
