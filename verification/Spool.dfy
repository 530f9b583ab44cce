/** The dumper of one sender: an object whose methods change the dump directory, each by steps of its machine. */
module Spool {
  import opened Options
  import DumpCodec
  import DumpName
  import opened DumpDirectory

  // ---------------------------------------------------------------- the order of a directory listing

  predicate AtMost(a: string, b: string) {
    a == "" || (b != "" && (a[0] < b[0] || (a[0] == b[0] && AtMost(a[1..], b[1..]))))
  }

  lemma {:induction false} AtMostTotal(a: string, b: string)
    ensures AtMost(a, b) || AtMost(b, a)
  {
    if a != "" && b != "" {
      AtMostTotal(a[1..], b[1..]);
    }
  }

  lemma {:induction false} AtMostTransitive(a: string, b: string, c: string)
    requires AtMost(a, b) && AtMost(b, c)
    ensures AtMost(a, c)
  {
    if a != "" && b != "" && c != "" && a[0] == b[0] == c[0] {
      AtMostTransitive(a[1..], b[1..], c[1..]);
    }
  }

  ghost predicate IsFirst(f: string, names: set<string>) {
    f in names && forall g | g in names :: AtMost(f, g)
  }

  lemma {:induction false} FirstExists(names: set<string>)
    requires names != {}
    ensures exists f :: IsFirst(f, names)
  {
    var x :| x in names;
    var rest := names - {x};
    AtMostTotal(x, x);
    if rest == {} {
      assert names == {x};
      assert IsFirst(x, names);
    } else {
      FirstExists(rest);
      var f :| IsFirst(f, rest);
      AtMostTotal(x, f);
      if AtMost(x, f) {
        forall g | g in names ensures AtMost(x, g) {
          if g != x {
            AtMostTransitive(x, f, g);
          }
        }
        assert IsFirst(x, names);
      } else {
        assert IsFirst(f, names);
      }
    }
  }

  // ---------------------------------------------------------------- the dumper

  // Writing a file finds no directory and cannot make one, succeeds, or leaves part of it or nothing.
  datatype WriteIo = NoDirectory | Whole | Partly(part: string) | Nothing

  // How the listing, the read, the send, the move and the removal of one call turn out.
  datatype TurnIo = TurnIo(listOk: bool, readOk: bool, sendOk: bool, moveOk: bool, removeOk: bool)

  const SMOOTH := TurnIo(true, true, true, true, true)

  // What one call of ProcessNextDump did.
  datatype Report = Unlisted | NoDumps | ToFailed(file: string) | Done(file: string) | Kept(file: string)

  // A file that a replay reads and sends.
  predicate Sendable(f: string, files: map<string, string>, io: TurnIo) {
    !DumpName.IsClientError(f) && io.readOk && f in files && HasPayload(files[f])
  }

  // The file leaves the directory.
  predicate TurnOk(f: string, files: map<string, string>, io: TurnIo) {
    && io.listOk && f in files
    && if DumpName.IsClientError(f) then io.moveOk
       else io.readOk && (HasPayload(files[f]) ==> io.sendOk) && io.removeOk
  }

  // The file leaves failed/.
  predicate RetryOk(text: string, io: TurnIo) {
    io.readOk && (HasPayload(text) ==> io.sendOk) && io.removeOk
  }

  // The steps of ProcessNextDump that go well for the file.
  function TurnSteps(f: string, files: map<string, string>, io: TurnIo): seq<Label> {
    if DumpName.IsClientError(f) then if io.moveOk then [Moved(f)] else []
    else if !io.readOk then []
    else
      var last := if io.removeOk then Removed(f) else Locked(f);
      if !Sendable(f, files, io) then [last] else if io.sendOk then [Sent(f), last] else []
  }

  /**
   No file has a name still to be given, none is both pending and failed, and a pending file that was sent with
   success is locked.
   */
  ghost predicate Sound(prefix: string, dumpNum: nat, d: Dir) {
    && |prefix| == 14
    && DumpName.Unused(prefix, dumpNum, Names(d))
    && d.sent.Keys * d.pending.Keys <= d.locked
    && d.pending.Keys !! d.failed.Keys
  }

  class FileDumper {
    const prefix: string
    const maxFiles: int
    var dumpNum: nat
    var pending: map<string, string>
    var failed: map<string, string>
    var locked: set<string>
    ghost var sent: map<string, DumpCodec.Payload>     // files sent with success in this process, and as what

    ghost function View(): Dir
      reads this
    {
      Dir(pending, failed, locked, sent)
    }

    ghost predicate Valid()
      reads this
    {
      Sound(prefix, dumpNum, View())
    }

    // NewDumper, on a directory that another process may have left; its names are those of other prefixes.
    constructor (prefix: string, maxFiles: int, pending: map<string, string>, failed: map<string, string>)
      requires |prefix| == 14 && DumpName.Unused(prefix, 0, pending.Keys + failed.Keys) && pending.Keys !! failed.Keys
      ensures Valid() && dumpNum == 0 && View() == Dir(pending, failed, {}, map[])
      ensures this.prefix == prefix && this.maxFiles == maxFiles
    {
      this.prefix, this.maxFiles := prefix, maxFiles;
      dumpNum, this.pending, this.failed, locked, sent := 0, pending, failed, {}, map[];
      new;
      assert Names(View()) == pending.Keys + failed.Keys;
    }

    method First(names: set<string>) returns (f: string)
      requires names != {}
      ensures IsFirst(f, names)
    {
      FirstExists(names);
      f :| f in names && forall g | g in names :: AtMost(f, g);
    }

    /**
     Dump: on success the file is in the directory with params, content and response, and no other file is touched,
     unless a limit on their number is set; then only the files that come first in name order go.
     */
    method Dump(
        params: string, content: string, response: string, kind: string, status: nat, io: WriteIo,
        removable: string -> bool)
        returns (ok: bool, ghost trace: seq<Label>)
      requires Valid() && DumpName.IsKind(kind)
      modifies this
      ensures Valid() && failed == old(failed) && locked == old(locked) && sent == old(sent)
      ensures (ok <==> io.Whole?) && (io.NoDirectory? <==> dumpNum == old(dumpNum))
      ensures !io.NoDirectory? ==> dumpNum == old(dumpNum) + 1
      ensures var name := DumpName.FileName(prefix, old(dumpNum) + 1, kind, status);
              && name !in old(pending)
              && (ok ==> WrittenAs(
                    old(pending)[name := DumpCodec.Encode(params, content, response)], pending, maxFiles, removable))
              && (!ok ==> pending == if io.Partly? then old(pending)[name := io.part] else old(pending))
      ensures Exec(old(View()), trace) == Some(View())
      ensures maxFiles <= 0 || !ok ==> forall f :: Pruned(f) !in trace
      ensures forall l | l in trace && l.Wrote? :: l.file == DumpName.FileName(prefix, old(dumpNum) + 1, kind, status)
    {
      hide DumpName.FileName, DumpCodec.Encode, DumpName.Unused, WrittenAs, DumpName.IsKind, Exec;
      ghost var d := View();
      trace := [];
      ExecNone(d);
      var name := DumpName.FileName(prefix, dumpNum + 1, kind, status);
      DumpName.NameIsNew(prefix, dumpNum, kind, status, Names(d));
      if io.NoDirectory? {
        return false, trace;
      }
      dumpNum := dumpNum + 1;
      ok, trace := WriteFile(name, DumpCodec.Encode(params, content, response), io, removable);
      NamesAfterWrite(d, View(), name);
      DumpName.FewerUnused(prefix, dumpNum, Names(d) + {name}, Names(View()));
    }

    // os.WriteFile and, after a success, the pruning.
    method WriteFile(name: string, data: string, io: WriteIo, removable: string -> bool)
        returns (ok: bool, ghost trace: seq<Label>)
      requires name !in pending && !io.NoDirectory?
      modifies this`pending
      ensures ok <==> io.Whole?
      ensures ok ==> WrittenAs(old(pending)[name := data], pending, maxFiles, removable)
      ensures !ok ==> pending == if io.Partly? then old(pending)[name := io.part] else old(pending)
      ensures pending.Keys <= old(pending).Keys + {name}
      ensures Exec(old(View()), trace) == Some(View())
      ensures maxFiles <= 0 || !ok ==> forall f :: Pruned(f) !in trace
      ensures forall l | l in trace && l.Wrote? :: l.file == name
    {
      hide AtMost, Exec, WrittenAs, Apply;
      ghost var d := View();
      match io {
        case Nothing =>
          ExecNone(d);
          return false, [];
        case Partly(part) =>
          pending := pending[name := part];
          ExecOne(d, Wrote(name, part));
          WrittenNow(d, name, part);
          return false, [Wrote(name, part)];
        case Whole =>
          pending := pending[name := data];
          ExecOne(d, Wrote(name, data));
          WrittenNow(d, name, data);
          trace := [Wrote(name, data)];
          if maxFiles <= 0 {
            AllLeft(pending, maxFiles, removable);
          } else {
            ghost var rest := Prune(removable);
            ExecConcat(d, trace, rest);
            trace := trace + rest;
          }
          FewerLeft(d.pending[name := data], pending, maxFiles, removable);
          return true, trace;
      }
    }

    // pruneOldestIfNeeded, which stops at a file that cannot be removed.
    method Prune(removable: string -> bool) returns (ghost trace: seq<Label>)
      requires maxFiles > 0
      modifies this`pending
      ensures WrittenAs(old(pending), pending, maxFiles, removable)
      ensures Exec(old(View()), trace) == Some(View())
      ensures forall l | l in trace :: l.Pruned?
    {
      hide Exec, AtMost;
      ghost var all, d := pending, View();
      trace := [];
      ExecNone(d);
      while |pending| > maxFiles
        invariant PrunedTo(all, pending) && Lesser(|pending|, maxFiles) == Lesser(|all|, maxFiles)
        invariant Exec(d, trace) == Some(View())
        invariant forall l | l in trace :: l.Pruned?
        decreases |pending|
      {
        assert pending.Keys != {};
        var oldest := First(pending.Keys);
        if !removable(oldest) {
          return;
        }
        PrunedNext(all, pending, oldest);
        Shrinks(pending.Keys, pending.Keys - {oldest}, oldest);
        ExecSnoc(d, trace, Pruned(oldest));
        trace := trace + [Pruned(oldest)];
        pending := pending - {oldest};
      }
    }

    // ProcessNextDump.
    method ProcessNextDump(io: TurnIo) returns (r: Report, wasSent: bool, ghost trace: seq<Label>)
      requires Valid()
      modifies this
      ensures Valid() && dumpNum == old(dumpNum)
      ensures Exec(old(View()), trace) == Some(View())
      ensures r.Unlisted? <==> !io.listOk
      ensures r.NoDumps? <==> io.listOk && old(pending.Keys) <= old(locked)
      ensures r.ToFailed? || r.Done? || r.Kept? ==>
                IsFirst(r.file, old(pending.Keys - locked)) && trace == TurnSteps(r.file, old(pending), io)
      ensures r.Unlisted? || r.NoDumps? ==> trace == []
      ensures r.ToFailed? <==> trace != [] && trace[0].Moved?
      ensures r.Done? <==> trace != [] && trace[|trace| - 1].Removed?
      ensures wasSent <==> (r.Done? || r.Kept?) && Sendable(r.file, old(pending), io)
      ensures wasSent ==> r.file !in old(sent)
    {
      hide HasPayload, DumpName.IsClientError, AtMost, Sound, Exec, Read;
      ghost var d := View();
      trace, wasSent := [], false;
      ExecNone(d);
      if !io.listOk {
        return Unlisted, false, trace;
      }
      var free := pending.Keys - locked;
      NoneFree(pending.Keys, locked);
      if free == {} {
        return NoDumps, false, trace;
      }
      var f := First(free);
      if DumpName.IsClientError(f) {
        if !io.moveOk {
          return Kept(f), false, trace;
        }
        ExecOne(d, Moved(f));
        MoveSound(prefix, dumpNum, d, f);
        failed, pending := failed[f := pending[f]], pending - {f};
        return ToFailed(f), false, [Moved(f)];
      }
      if !io.readOk {
        return Kept(f), false, trace;
      }
      NotYetSent(prefix, dumpNum, d, f);
      if HasPayload(pending[f]) {
        wasSent := true;
        if !io.sendOk {
          return Kept(f), true, trace;
        }
        ExecOne(d, Sent(f));
        trace := [Sent(f)];
        sent := sent[f := Read(pending[f])];
      }
      ghost var last := if io.removeOk then Removed(f) else Locked(f);
      ExecSnoc(d, trace, last);
      trace := trace + [last];
      if !io.removeOk {
        locked := locked + {f};
        TurnSound(prefix, dumpNum, d, View(), f);
        return Kept(f), wasSent, trace;
      }
      pending := pending - {f};
      TurnSound(prefix, dumpNum, d, View(), f);
      return Done(f), wasSent, trace;
    }

    /**
     One tick of Listen: it goes through the directory until it is empty, a file fails, or the batch limit is reached.
     It always ends, because every turn but the last takes a file out of the unlocked ones; it is made of turns of
     ProcessNextDump; the files that have left are those that come first in name order; it does not end before it has
     to; and when nothing fails and there is no limit, no unlocked file is left.
     */
    method Tick(batchLimit: int, io: nat -> TurnIo) returns (processed: nat, ghost trace: seq<Label>)
      requires Valid()
      modifies this
      ensures Valid() && (batchLimit > 0 ==> processed <= batchLimit) && pending.Keys <= old(pending.Keys)
      ensures Exec(old(View()), trace) == Some(View())
      ensures forall l | l in trace :: OfReplay(l)
      ensures LeftInOrder(old(pending), pending, old(locked))
      ensures processed == |old(pending.Keys - locked)| - |pending.Keys - old(locked)|
      ensures || (batchLimit > 0 && processed == batchLimit) || pending.Keys <= old(locked) || !io(processed).listOk
              || exists f :: IsFirst(f, pending.Keys - old(locked)) && !TurnOk(f, pending, io(processed))
      ensures batchLimit <= 0 && (forall n :: io(n) == SMOOTH) ==> pending.Keys <= old(locked)
    {
      hide DumpName.IsClientError, HasPayload, Valid, IsFirst, Exec, TurnSteps, LeftInOrder;
      ghost var d := View();
      NoneLeft(pending, locked);
      processed, trace := 0, [];
      ExecNone(d);
      while true
        invariant Valid() && (batchLimit > 0 ==> processed <= batchLimit) && pending.Keys <= old(pending.Keys)
        invariant Exec(d, trace) == Some(View())
        invariant forall l | l in trace :: OfReplay(l)
        invariant locked == old(locked) && LeftInOrder(old(pending), pending, locked)
        invariant processed == |old(pending.Keys - locked)| - |pending.Keys - locked|
        decreases |pending.Keys - locked|
      {
        if batchLimit > 0 && processed >= batchLimit {
          return;
        }
        ghost var before := View();
        ghost var turn: seq<Label>;
        var r, wasSent;
        r, wasSent, turn := ProcessNextDump(io(processed));
        ExecConcat(d, trace, turn);
        trace := trace + turn;
        TurnEffect(before, View(), turn, r, io(processed));
        if !r.ToFailed? && !r.Done? {
          return;
        }
        FewerFree(before.pending, locked, r.file);
        LeftNext(old(pending), before.pending, locked, r.file);
        processed := processed + 1;
      }
    }

    /**
     ReplayFailed: every file of failed/ is tried, in name order up to the limit, even after one has failed; exactly the
     files counted as sent are gone, each of them sent with success or without anything to send. If the directory cannot
     be listed that is one error and nothing is tried.
     */
    method ReplayFailed(listOk: bool, limit: int, io: string -> TurnIo)
        returns (good: nat, errors: nat, remaining: nat, ghost trace: seq<Label>)
      requires Valid()
      modifies this
      ensures Valid() && pending == old(pending) && locked == old(locked)
      ensures Exec(old(View()), trace) == Some(View())
      ensures forall l | l in trace :: l.Retried? || l.Dropped?
      ensures !listOk ==> good == 0 && errors == 1 && remaining == 0 && trace == []
      ensures listOk ==> good + errors == if limit > 0 then Lesser(old(|failed|), limit) else old(|failed|)
      ensures listOk ==> remaining == |failed| == old(|failed|) - good && failed.Keys <= old(failed.Keys)
      ensures forall f | f in failed :: f in old(failed) && failed[f] == old(failed)[f]
      ensures listOk ==> forall f | f in old(failed) ::
                f !in failed
                <==> (limit <= 0 || |Earlier(old(failed.Keys), f)| < limit) && RetryOk(old(failed)[f], io(f))
      ensures !listOk ==> failed == old(failed)
    {
      hide HasPayload, Valid, IsFirst, Exec, Earlier, Ordered, RetryOk;
      ghost var d := View();
      good, errors, remaining, trace := 0, 0, 0, [];
      ExecNone(d);
      if !listOk {
        errors := 1;
        return;
      }
      var todo := failed.Keys;
      ghost var all := failed;
      NothingTriedYet(all.Keys);
      while todo != {} && !(limit > 0 && good + errors >= limit)
        invariant Valid() && pending == old(pending) && locked == old(locked)
        invariant todo <= failed.Keys <= old(failed.Keys) && good + errors + |todo| == old(|failed|)
        invariant |failed| == old(|failed|) - good && (limit > 0 ==> good + errors <= limit)
        invariant Exec(d, trace) == Some(View())
        invariant forall l | l in trace :: l.Retried? || l.Dropped?
        invariant forall f | f in failed :: f in all && failed[f] == all[f]
        invariant forall f | f in all && f !in todo :: f !in failed <==> RetryOk(all[f], io(f))
        invariant Ordered(all.Keys, todo)
        decreases todo
      {
        var name := First(todo);
        FirstIsOne(name, todo);
        TriedNextInOrder(all.Keys, todo, name);
        Shrinks(todo, todo - {name}, name);
        todo := todo - {name};
        ghost var turn: seq<Label>;
        var ok;
        assert failed[name] == all[name];
        ok, turn := ReplayOne(name, io(name));
        ExecConcat(d, trace, turn);
        trace := trace + turn;
        if ok {
          good := good + 1;
        } else {
          errors := errors + 1;
        }
      }
      remaining := |failed|;
      WhoWasTried(all.Keys, todo, limit, good + errors);
    }

    // One turn of ReplayFailed's loop.
    method ReplayOne(name: string, io: TurnIo) returns (ok: bool, ghost trace: seq<Label>)
      requires Valid() && name in failed
      modifies this`failed, this`sent
      ensures Valid() && (ok <==> RetryOk(old(failed)[name], io))
      ensures failed == (if ok then old(failed) - {name} else old(failed)) && (ok ==> |failed| == old(|failed|) - 1)
      ensures Exec(old(View()), trace) == Some(View())
      ensures forall l | l in trace :: l == Retried(name) || l == Dropped(name)
    {
      hide HasPayload, Sound, Exec;
      ghost var d := View();
      trace := [];
      ExecNone(d);
      if !io.readOk {
        return false, trace;
      }
      if HasPayload(failed[name]) {
        if !io.sendOk {
          return false, trace;
        }
        ExecOne(d, Retried(name));
        RetrySound(prefix, dumpNum, d, Retried(name));
        trace := [Retried(name)];
        sent := sent[name := Read(failed[name])];
      }
      if !io.removeOk {
        return false, trace;
      }
      ExecSnoc(d, trace, Dropped(name));
      RetrySound(prefix, dumpNum, View(), Dropped(name));
      trace := trace + [Dropped(name)];
      Shrinks(failed.Keys, failed.Keys - {name}, name);
      failed := failed - {name};
      return true, trace;
    }
  }

  function Lesser(a: int, b: int): int {
    if a < b then a else b
  }

  // What ProcessNextDump does.
  predicate OfReplay(l: Label) {
    l.Moved? || l.Sent? || l.Locked? || l.Removed?
  }

  lemma NotYetSent(prefix: string, dumpNum: nat, d: Dir, f: string)
    requires Sound(prefix, dumpNum, d) && f in d.pending && f !in d.locked
    ensures f !in d.sent
  {
  }

  lemma MoveSound(prefix: string, dumpNum: nat, d: Dir, f: string)
    requires Sound(prefix, dumpNum, d) && Enabled(d, Moved(f))
    ensures Sound(prefix, dumpNum, Apply(d, Moved(f)))
  {
    hide DumpName.Unused, DumpName.IsClientError;
    DumpName.FewerUnused(prefix, dumpNum, Names(d), Names(Apply(d, Moved(f))));
  }

  // The file that was sent, or had nothing in it to send, is gone or locked.
  lemma TurnSound(prefix: string, dumpNum: nat, d: Dir, e: Dir, f: string)
    requires Sound(prefix, dumpNum, d) && f in d.pending && e.failed == d.failed
    requires d.sent.Keys <= e.sent.Keys <= d.sent.Keys + {f}
    requires (e.pending == d.pending - {f} && e.locked == d.locked)
             || (e.pending == d.pending && e.locked == d.locked + {f})
    ensures Sound(prefix, dumpNum, e)
  {
    hide DumpName.Unused;
    DumpName.FewerUnused(prefix, dumpNum, Names(d), Names(e));
  }

  lemma RetrySound(prefix: string, dumpNum: nat, d: Dir, l: Label)
    requires Sound(prefix, dumpNum, d) && Enabled(d, l) && (l.Retried? || l.Dropped?)
    ensures Sound(prefix, dumpNum, Apply(d, l))
  {
    hide HasPayload, Read, DumpName.Unused;
    DumpName.FewerUnused(prefix, dumpNum, Names(d), Names(Apply(d, l)));
  }

  lemma NoNames(prefix: string)
    ensures DumpName.Unused(prefix, 0, {})
  {
  }

  lemma FirstIsOne(f: string, names: set<string>)
    requires IsFirst(f, names)
    ensures f in names
  {
  }

  // A turn takes its file out of the directory, or leaves the files and, unless it cannot remove one, the locks.
  lemma TurnEffect(before: Dir, after: Dir, turn: seq<Label>, r: Report, io: TurnIo)
    requires Exec(before, turn) == Some(after)
    requires r.ToFailed? || r.Done? || r.Kept? ==>
               IsFirst(r.file, before.pending.Keys - before.locked) && turn == TurnSteps(r.file, before.pending, io)
    requires r.Unlisted? || r.NoDumps? ==> turn == []
    requires r.Unlisted? <==> !io.listOk
    requires r.ToFailed? <==> turn != [] && turn[0].Moved?
    requires r.Done? <==> turn != [] && turn[|turn| - 1].Removed?
    ensures r.ToFailed? || r.Done? ==> after.pending == before.pending - {r.file} && after.locked == before.locked
    ensures after.pending.Keys <= before.pending.Keys && forall l | l in turn :: OfReplay(l)
    ensures io == SMOOTH ==> r.NoDumps? || r.ToFailed? || r.Done? || r.Unlisted?
    ensures r.Unlisted? || r.NoDumps? || r.Kept? ==> after.pending == before.pending
    ensures r.ToFailed? || r.Done? || r.Kept? ==>
              (r.ToFailed? || r.Done? <==> TurnOk(r.file, before.pending, io))
  {
    hide HasPayload, DumpName.IsClientError, Read, IsFirst;
    ExecNone(before);
    if |turn| == 1 {
      assert turn[..0] == [] && turn == [turn[0]];
    } else if |turn| == 2 {
      assert turn[..1] == [turn[0]] && turn[..1][..0] == [];
    }
  }

  lemma NamesAfterWrite(d: Dir, e: Dir, name: string)
    requires e.pending.Keys <= d.pending.Keys + {name} && name !in Names(d)
    requires e.failed == d.failed && e.locked == d.locked && e.sent == d.sent
    requires d.sent.Keys * d.pending.Keys <= d.locked && d.pending.Keys !! d.failed.Keys
    ensures Names(e) <= Names(d) + {name}
    ensures e.sent.Keys * e.pending.Keys <= e.locked && e.pending.Keys !! e.failed.Keys
  {
  }

  lemma FewerFree(files: map<string, string>, locked: set<string>, f: string)
    requires IsFirst(f, files.Keys - locked)
    ensures |(files - {f}).Keys - locked| == |files.Keys - locked| - 1
  {
    assert (files - {f}).Keys - locked == files.Keys - locked - {f};
    Shrinks(files.Keys - locked, files.Keys - locked - {f}, f);
  }

  // The files are those there were, less some that come first among the unlocked ones.
  ghost predicate LeftInOrder(was: map<string, string>, now: map<string, string>, locked: set<string>) {
    && now.Keys <= was.Keys
    && (forall f | f in now :: now[f] == was[f])
    && (forall f, g | f in was && f !in now && g in now && g !in locked :: f !in locked && AtMost(f, g))
  }

  lemma NoneLeft(files: map<string, string>, locked: set<string>)
    ensures LeftInOrder(files, files, locked)
  {
  }

  lemma LeftNext(was: map<string, string>, now: map<string, string>, locked: set<string>, f: string)
    requires LeftInOrder(was, now, locked) && IsFirst(f, now.Keys - locked)
    ensures LeftInOrder(was, now - {f}, locked)
  {
    hide AtMost;
  }

  lemma NoneFree(names: set<string>, locked: set<string>)
    ensures names - locked == {} <==> names <= locked
  {
    assert forall x | x in names && x !in locked :: x in names - locked;
  }

  // The names before this one in a listing.
  ghost function Earlier(names: set<string>, f: string): set<string> {
    set g | g in names && g != f && AtMost(g, f)
  }

  // The names tried come before those to do, as many before each as there were.
  ghost predicate Ordered(all: set<string>, todo: set<string>) {
    && todo <= all
    && (forall f, g | f in all - todo && g in todo :: AtMost(f, g))
    && (forall f | f in all - todo :: |Earlier(all, f)| < |all - todo|)
  }

  lemma NothingTriedYet(all: set<string>)
    ensures Ordered(all, all)
  {
    assert all - all == {};
  }

  lemma TriedNextInOrder(all: set<string>, todo: set<string>, f: string)
    requires Ordered(all, todo) && IsFirst(f, todo)
    ensures Ordered(all, todo - {f})
  {
    hide AtMost;
    assert Earlier(all, f) == all - todo by {
      forall g | g in Earlier(all, f) ensures g in all - todo {
        if g in todo {
          AtMostBoth(f, g);
        }
      }
    }
    assert all - (todo - {f}) == (all - todo) + {f};
    Shrinks((all - todo) + {f}, all - todo, f);
  }

  lemma WhoWasTried(all: set<string>, todo: set<string>, limit: int, n: nat)
    requires Ordered(all, todo) && n + |todo| == |all| && (todo == {} || (limit > 0 && n >= limit))
    requires limit > 0 ==> n <= limit
    ensures forall f | f in all :: f !in todo <==> limit <= 0 || |Earlier(all, f)| < limit
  {
    hide AtMost;
    SetMinus(all, todo);
    forall f | f in todo ensures |Earlier(all, f)| >= |all - todo| {
      SmallerSet(all - todo, Earlier(all, f));
    }
  }

  lemma SetMinus(all: set<string>, todo: set<string>)
    requires todo <= all
    ensures |all - todo| == |all| - |todo|
  {
  }

  lemma Shrinks(before: set<string>, after: set<string>, f: string)
    requires f in before && after == before - {f}
    ensures |after| == |before| - 1
  {
  }

  // ---------------------------------------------------------------- pruning

  // What is left after the files that come first in name order are removed.
  ghost predicate PrunedTo(all: map<string, string>, left: map<string, string>) {
    && left.Keys <= all.Keys
    && (forall f | f in left :: left[f] == all[f])
    && (forall f, g | f in all && f !in left && g in left :: AtMost(f, g))
  }

  // All the files, but for those that a limit on their number takes out: as many as exceed it, unless one that comes
  // first among the rest cannot be removed.
  ghost predicate WrittenAs(
      all: map<string, string>, left: map<string, string>, maxFiles: int, removable: string -> bool)
  {
    if maxFiles <= 0 then left == all
    else
      && PrunedTo(all, left)
      && (|left| == Lesser(|all|, maxFiles)
          || (|left| > maxFiles && exists f :: IsFirst(f, left.Keys) && !removable(f)))
  }

  lemma WrittenNow(d: Dir, name: string, text: string)
    ensures Apply(d, Wrote(name, text)) == d.(pending := d.pending[name := text])
  {
  }

  lemma AllLeft(all: map<string, string>, maxFiles: int, removable: string -> bool)
    requires maxFiles <= 0
    ensures WrittenAs(all, all, maxFiles, removable)
  {
  }

  lemma FewerLeft(all: map<string, string>, left: map<string, string>, maxFiles: int, removable: string -> bool)
    requires WrittenAs(all, left, maxFiles, removable)
    ensures left.Keys <= all.Keys
  {
  }

  lemma PrunedNext(all: map<string, string>, left: map<string, string>, f: string)
    requires PrunedTo(all, left) && IsFirst(f, left.Keys)
    ensures PrunedTo(all, left - {f})
  {
    hide AtMost;
  }

  lemma {:induction false} AtMostBoth(a: string, b: string)
    requires AtMost(a, b) && AtMost(b, a)
    ensures a == b
  {
    if a != "" {
      AtMostBoth(a[1..], b[1..]);
      assert a == [a[0]] + a[1..] && b == [b[0]] + b[1..];
    }
  }

  // The other files that do not come before it in name order.
  ghost function NotBefore(all: map<string, string>, f: string): set<string> {
    set g | g in all && g != f && AtMost(f, g)
  }

  lemma SmallerSet(a: set<string>, b: set<string>)
    requires a <= b
    ensures |a| <= |b|
  {
    assert b == a + (b - a);
  }

  /**
   Which files survive a limit: a file does, the one just written like any other, if and only if fewer than maxFiles
   others come after it in name order.
   */
  lemma SurvivesExactly(all: map<string, string>, left: map<string, string>, maxFiles: int, f: string)
    requires maxFiles > 0 && WrittenAs(all, left, maxFiles, _ => true) && f in all
    ensures f in left <==> |NotBefore(all, f)| < maxFiles
  {
    hide AtMost;
    var later := NotBefore(all, f);
    if f in left {
      forall g | g in later ensures g in left {
        if g !in left {
          AtMostBoth(f, g);
        }
      }
      Shrinks(later + {f}, later, f);
      SmallerSet(later + {f}, left.Keys);
    } else {
      assert forall g | g in left :: g in later;
      SmallerSet(left.Keys, later);
      SmallerSet(left.Keys + {f}, all.Keys);
      Shrinks(left.Keys + {f}, left.Keys, f);
    }
  }

  lemma {:induction false} SharedPrefix(p: string, a: string, b: string)
    ensures AtMost(p + a, p + b) <==> AtMost(a, b)
  {
    if p == "" {
      assert p + a == a && p + b == b;
    } else {
      SharedPrefix(p[1..], a, b);
      assert (p + a)[1..] == p[1..] + a && (p + b)[1..] == p[1..] + b;
    }
  }

  // Two dumps of one process that differ in their last digit keep the order of their numbers; the tenth comes before
  // the ninth.
  lemma DigitsInOrder(prefix: string, n: nat)
    requires 0 < n < 10
    ensures var f, g := DumpName.FileName(prefix, n, "1", 0), DumpName.FileName(prefix, n + 1, "1", 0);
            if n < 9 then AtMost(f, g) && !AtMost(g, f) else AtMost(g, f) && !AtMost(f, g)
  {
    var head := "dump" + prefix + "1-";
    assert head == "dump" + prefix + "1" + "-";
    SharedPrefix(head, DumpName.Numbers(n, 0), DumpName.Numbers(n + 1, 0));
    SharedPrefix(head, DumpName.Numbers(n + 1, 0), DumpName.Numbers(n, 0));
    assert DumpName.Numbers(n, 0)[0] == DumpName.Digit(n);
    assert n == 9 ==> DumpName.Itoa(10) == [DumpName.Digit(1)] + [DumpName.Digit(0)];
    assert DumpName.Numbers(n + 1, 0)[0] == if n < 9 then DumpName.Digit(n + 1) else '1';
  }

  // With room for one file, the one that comes later in name order stays.
  lemma OneStays(all: map<string, string>, left: map<string, string>, f: string, g: string)
    requires all.Keys == {f, g} && f != g && AtMost(f, g) && !AtMost(g, f) && WrittenAs(all, left, 1, _ => true)
    ensures left.Keys == {g}
  {
    SurvivesExactly(all, left, 1, f);
    SurvivesExactly(all, left, 1, g);
    hide AtMost;
    assert NotBefore(all, f) == {g} && NotBefore(all, g) == {};
    hide NotBefore;
    assert forall x | x in left :: x in all;
  }

  lemma OnlyOne(all: map<string, string>, left: map<string, string>, g: string)
    requires all.Keys == {g} && WrittenAs(all, left, 1, _ => true)
    ensures left.Keys == {g}
  {
    SurvivesExactly(all, left, 1, g);
    assert NotBefore(all, g) == {};
    assert forall x | x in left :: x in all;
  }

  // What n dumps of a new process leave when there is room for one.
  ghost function LeftOf(prefix: string, n: nat): set<string> {
    if n == 0 then {} else {DumpName.FileName(prefix, if n == 10 then 9 else n, "1", 0)}
  }

  lemma NextLeft(prefix: string, n: nat, was: map<string, string>, text: string, left: map<string, string>)
    requires |prefix| == 14 && n < 10 && was.Keys == LeftOf(prefix, n)
    requires var g := DumpName.FileName(prefix, n + 1, "1", 0);
             g !in was && WrittenAs(was[g := text], left, 1, _ => true)
    ensures left.Keys == LeftOf(prefix, n + 1)
  {
    hide AtMost, WrittenAs, DumpName.FileName;
    var f, g := DumpName.FileName(prefix, n, "1", 0), DumpName.FileName(prefix, n + 1, "1", 0);
    var all := was[g := text];
    if n == 0 {
      OnlyOne(all, left, g);
    } else {
      assert all.Keys == {f, g};
      DigitsInOrder(prefix, n);
      if n < 9 {
        OneStays(all, left, f, g);
      } else {
        OneStays(all, left, g, f);
      }
    }
  }

  /**
   The oldest file by name need not be the oldest by number: ten dumps of a new process with room for one file leave the
   ninth. The tenth is pruned as soon as it is written, although its dump succeeded.
   */
  method TenDumps(prefix: string, content: string) returns (d: FileDumper)
    requires |prefix| == 14
    ensures fresh(d) && d.Valid() && d.dumpNum == 10
    ensures d.pending.Keys == {DumpName.FileName(prefix, 9, "1", 0)}
  {
    hide DumpName.FileName, FileDumper.Valid, DumpCodec.Encode, WrittenAs, Exec, DumpName.Unused;
    assert DumpName.Unused(prefix, 0, {}) by {
      NoNames(prefix);
    }
    d := new FileDumper(prefix, 1, map[], map[]);
    var n := 0;
    while n < 10
      invariant fresh(d) && d.Valid() && d.dumpNum == n <= 10 && d.prefix == prefix && d.maxFiles == 1
      invariant d.pending.Keys == LeftOf(prefix, n)
    {
      ghost var was := d.pending;
      var ok;
      ghost var trace;
      ok, trace := d.Dump("", content, "", "1", 0, Whole, _ => true);
      NextLeft(prefix, n, was, DumpCodec.Encode("", content, ""), d.pending);
      n := n + 1;
    }
  }
}
