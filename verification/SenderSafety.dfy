/**
 What every step of a sender keeps: what it owes for is taken by its server or told by a file of its dump directory.
 */
module SenderSafety {
  import opened Messages
  import opened Pipeline
  import DumpName
  import DumpCodec
  import D = DumpDirectory

  // The inserts that these files tell.
  function FileReqs(origins: map<string, Origin>, files: map<string, string>): set<nat> {
    set f, k | f in files && Tells(origins, f, files[f]) && 0 <= k < |origins[f].batch| :: origins[f].batch[k].req
  }

  // Taken by the server, or told by a file of the dump directory or of failed/.
  function StoredBy(s: Sender): set<nat> {
    s.accepted + FileReqs(s.origins, s.dir.pending) + FileReqs(s.failedOrigins, s.dir.failed)
  }

  // Those, and the inserts that were dumped in a text that does not read back.
  function CoveredBy(s: Sender): set<nat> {
    StoredBy(s) + s.spoiled
  }

  // The payload is what a file says, and what the file was written for was taken if it says that.
  ghost predicate WasSent(
      s: Sender, sent: DumpCodec.Payload, origins: map<string, Origin>, files: map<string, string>, f: string)
  {
    f in files ==>
      && sent == D.Read(files[f])
      && (f in origins && D.TellsAs(sent, origins[f].message.params, origins[f].message.content) ==>
            Reqs(origins[f].batch) <= s.accepted)
  }

  ghost predicate SentTold(s: Sender, f: string)
    requires f in s.dir.sent
  {
    && WasSent(s, s.dir.sent[f], s.origins, s.dir.pending, f)
    && WasSent(s, s.dir.sent[f], s.failedOrigins, s.dir.failed, f)
  }

  ghost predicate SenderInv(s: Sender) {
    && |s.prefix| == 14 && s.prefix in s.prefixes
    && DumpName.Unused(s.prefix, s.dumpNum, D.Names(s.dir))
    && DumpName.OfPrefixes(D.Names(s.dir), s.prefixes)
    && s.dir.pending.Keys !! s.dir.failed.Keys
    && forall f | f in s.dir.sent :: SentTold(s, f)
  }

  lemma FileReqsMember(origins: map<string, Origin>, files: map<string, string>, q: nat)
    ensures q in FileReqs(origins, files)
       <==> exists f | f in files :: Tells(origins, f, files[f]) && q in Reqs(origins[f].batch)
  {
    hide D.Read, D.TellsAs;
    if f :| f in files && Tells(origins, f, files[f]) && q in Reqs(origins[f].batch) {
      var k :| 0 <= k < |origins[f].batch| && origins[f].batch[k].req == q;
    }
  }

  // One file more, or another in the place of one.
  lemma FileReqsSet(origins: map<string, Origin>, files: map<string, string>, f: string, o: Origin, text: string)
    ensures FileReqs(origins[f := o], files[f := text])
         == FileReqs(origins, files - {f}) + (if Tells(map[f := o], f, text) then Reqs(o.batch) else {})
  {
    hide D.Read, D.TellsAs, Reqs, FileReqs;
    var origins', files', rest := origins[f := o], files[f := text], files - {f};
    forall q ensures q in FileReqs(origins', files')
                <==> q in FileReqs(origins, rest) || (Tells(map[f := o], f, text) && q in Reqs(o.batch))
    {
      FileReqsMember(origins', files', q);
      FileReqsMember(origins, rest, q);
      if q in FileReqs(origins, rest) {
        var g :| g in rest && Tells(origins, g, rest[g]) && q in Reqs(origins[g].batch);
        assert Tells(origins', g, files'[g]);
      }
      if Tells(map[f := o], f, text) && q in Reqs(o.batch) {
        assert Tells(origins', f, files'[f]);
      }
    }
  }

  // The files are one of them and the rest.
  lemma FileReqsSplit(origins: map<string, Origin>, files: map<string, string>, f: string)
    ensures FileReqs(origins, files) == FileReqs(origins, files - {f}) + ToldBy(origins, files, f)
  {
    hide Tells, Reqs, FileReqs;
    forall q ensures q in FileReqs(origins, files)
                <==> q in FileReqs(origins, files - {f}) || q in ToldBy(origins, files, f)
    {
      FileReqsMember(origins, files, q);
      FileReqsMember(origins, files - {f}, q);
    }
  }

  // ---------------------------------------------------------------- a dump

  lemma NewName(s: Sender, status: nat)
    requires SenderInv(s)
    ensures var name := DumpName.FileName(s.prefix, s.dumpNum + 1, DumpName.KindOf(status), status);
            && name !in D.Names(s.dir) && |name| > 20 && name[4..18] == s.prefix
            && DumpName.Unused(s.prefix, s.dumpNum + 1, D.Names(s.dir) + {name})
  {
    hide DumpName.Unused, DumpName.FileName;
    DumpName.NameIsNew(s.prefix, s.dumpNum, DumpName.KindOf(status), status, D.Names(s.dir));
    DumpName.PrefixOf(s.prefix, s.dumpNum + 1, DumpName.KindOf(status), status);
  }

  // What a dump of this text adds to what is told.
  function NewlyTold(b: Batch, m: Message, text: string): set<nat> {
    if D.TellsAs(D.Read(text), m.params, m.content) then Reqs(b) else {}
  }

  // What nothing but this file of the directory says, or nothing but this file of failed/.
  function OnlyTold(s: Sender, f: string): set<nat> {
    ToldBy(s.origins, s.dir.pending, f)
    - (s.accepted + FileReqs(s.origins, s.dir.pending - {f}) + FileReqs(s.failedOrigins, s.dir.failed))
  }

  function OnlyToldInFailed(s: Sender, f: string): set<nat> {
    ToldBy(s.failedOrigins, s.dir.failed, f)
    - (s.accepted + FileReqs(s.origins, s.dir.pending) + FileReqs(s.failedOrigins, s.dir.failed - {f}))
  }

  lemma DumpStores(s: Sender, b: Batch, m: Message, status: nat, text: string)
    ensures var name := DumpName.FileName(s.prefix, s.dumpNum + 1, DumpName.KindOf(status), status);
            StoredBy(Dumped(s, b, m, status, text))
            == s.accepted + FileReqs(s.origins, s.dir.pending - {name}) + FileReqs(s.failedOrigins, s.dir.failed)
               + NewlyTold(b, m, text)
  {
    hide DumpName.FileName, DumpName.KindOf, FileReqs, D.Read, D.TellsAs, Reqs;
    var name := DumpName.FileName(s.prefix, s.dumpNum + 1, DumpName.KindOf(status), status);
    FileReqsSet(s.origins, s.dir.pending, name, Origin(b, m), text);
  }

  /**
   A dump loses exactly what nothing but the file of its name told, less what its own text tells; so it loses nothing
   when no file of the directory has its name.
   */
  lemma DumpLosesExactly(s: Sender, b: Batch, m: Message, status: nat, text: string)
    ensures var name := DumpName.FileName(s.prefix, s.dumpNum + 1, DumpName.KindOf(status), status);
            var t := Dumped(s, b, m, status, text);
            && StoredBy(s) - StoredBy(t) == OnlyTold(s, name) - NewlyTold(b, m, text)
            && (name !in s.dir.pending ==> StoredBy(s) <= StoredBy(t))
  {
    hide DumpName.FileName, DumpName.KindOf, FileReqs, NewlyTold, ToldBy, Dumped;
    var name := DumpName.FileName(s.prefix, s.dumpNum + 1, DumpName.KindOf(status), status);
    DumpStores(s, b, m, status, text);
    FileReqsSplit(s.origins, s.dir.pending, name);
    if name !in s.dir.pending {
      assert s.dir.pending - {name} == s.dir.pending;
    }
  }

  lemma MoveStores(s: Sender, f: string, m: Message)
    requires CanWork(s, Spooled(D.Moved(f)))
    ensures StoredBy(WorkOn(s, Spooled(D.Moved(f)), m))
         == s.accepted + FileReqs(s.origins, s.dir.pending) + FileReqs(s.failedOrigins, s.dir.failed - {f})
  {
    hide FileReqs, Reqs, D.Read, D.TellsAs, DumpName.IsClientError;
    var text := s.dir.pending[f];
    FileReqsSplit(s.origins, s.dir.pending, f);
    assert s.accepted + {} == s.accepted;
    if f in s.origins {
      FileReqsSet(s.failedOrigins, s.dir.failed, f, s.origins[f], text);
      assert Tells(map[f := s.origins[f]], f, text) <==> Tells(s.origins, f, text);
    } else {
      NoOrigin(s.failedOrigins, s.dir.failed, f, text);
    }
  }

  lemma NoOrigin(origins: map<string, Origin>, files: map<string, string>, f: string, text: string)
    ensures FileReqs(origins - {f}, files[f := text]) == FileReqs(origins, files - {f})
  {
    hide D.Read, D.TellsAs, Reqs, FileReqs;
    forall q ensures q in FileReqs(origins - {f}, files[f := text]) <==> q in FileReqs(origins, files - {f}) {
      FileReqsMember(origins - {f}, files[f := text], q);
      FileReqsMember(origins, files - {f}, q);
      if q in FileReqs(origins, files - {f}) {
        var g :| g in files - {f} && Tells(origins, g, files[g]) && q in Reqs(origins[g].batch);
        assert Tells(origins - {f}, g, files[f := text][g]);
      }
    }
  }

  /** Nor does a file that is moved to failed/ lose more than what only a file of its name in failed/ told. */
  lemma MoveLosesExactly(s: Sender, f: string, m: Message)
    requires CanWork(s, Spooled(D.Moved(f)))
    ensures var t := WorkOn(s, Spooled(D.Moved(f)), m);
            && StoredBy(s) - StoredBy(t) == OnlyToldInFailed(s, f)
            && (f !in s.dir.failed ==> StoredBy(s) <= StoredBy(t))
  {
    hide CanWork, WorkOn, FileReqs, ToldBy;
    MoveStores(s, f, m);
    FileReqsSplit(s.failedOrigins, s.dir.failed, f);
    if f !in s.dir.failed {
      assert s.dir.failed - {f} == s.dir.failed;
    }
  }

  lemma DumpKeeps(s: Sender, b: Batch, m: Message, status: nat, text: string)
    requires SenderInv(s)
    ensures var t := Dumped(s, b, m, status, text);
            && SenderInv(t) && StoredBy(s) <= StoredBy(t) && t.accepted == s.accepted
            && NewlyTold(b, m, text) <= StoredBy(t)
  {
    hide DumpName.Unused, DumpName.FileName, D.Read, FileReqs, DumpName.KindOf, Reqs, D.TellsAs, StoredBy, OnlyTold;
    hide NewlyTold;
    var t := Dumped(s, b, m, status, text);
    var name := DumpName.FileName(s.prefix, s.dumpNum + 1, DumpName.KindOf(status), status);
    NewName(s, status);
    assert D.Names(t.dir) <= D.Names(s.dir) + {name};
    DumpName.FewerUnused(s.prefix, s.dumpNum + 1, D.Names(s.dir) + {name}, D.Names(t.dir));
    forall f | f in t.dir.sent ensures SentTold(t, f) {
      assert SentTold(s, f);
    }
    DumpStores(s, b, m, status, text);
    DumpLosesExactly(s, b, m, status, text);
  }

  // A whole text tells what was dumped exactly when it reads back.
  lemma ReadsBackTells(m: Message, response: string)
    ensures D.TellsAs(D.Read(DumpText(m, response)), m.params, m.content) <==> ReadsBack(m, response)
  {
    DumpCodec.RoundTrip(m.params, m.content, response);
  }

  lemma WholeDumpKeeps(s: Sender, b: Batch, m: Message, status: nat, response: string)
    requires SenderInv(s)
    ensures var t := DumpedWhole(s, b, m, status, response);
            && SenderInv(t) && CoveredBy(s) <= CoveredBy(t) && Reqs(b) <= CoveredBy(t) && t.accepted == s.accepted
            && s.spoiled <= t.spoiled
  {
    hide Dumped, ReadsBack, DumpText, Reqs, D.Read, FileReqs, DumpName.Unused;
    var u := Dumped(s, b, m, status, DumpText(m, response));
    DumpKeeps(s, b, m, status, DumpText(m, response));
    SpoiledAside(u, if ReadsBack(m, response) then s.spoiled else s.spoiled + Reqs(b));
    ReadsBackTells(m, response);
    SameSpoiled(s, b, m, status, DumpText(m, response));
  }

  lemma SameSpoiled(s: Sender, b: Batch, m: Message, status: nat, text: string)
    ensures Dumped(s, b, m, status, text).spoiled == s.spoiled
  {
  }

  // What is spoiled matters to nothing else.
  lemma SpoiledAside(s: Sender, spoiled: set<nat>)
    requires SenderInv(s)
    ensures SenderInv(s.(spoiled := spoiled)) && StoredBy(s.(spoiled := spoiled)) == StoredBy(s)
  {
    hide D.Read, DumpName.Unused, FileReqs, WasSent;
    hide SentTold;
    var t := s.(spoiled := spoiled);
    forall f | f in t.dir.sent ensures SentTold(t, f) {
      SameSent(s, t, f);
    }
  }

  lemma SameSent(s: Sender, t: Sender, f: string)
    requires f in s.dir.sent && SentTold(s, f) && s.accepted <= t.accepted
    requires t.dir == s.dir && t.origins == s.origins && t.failedOrigins == s.failedOrigins
    ensures SentTold(t, f)
  {
    hide D.Read, D.TellsAs, Reqs;
  }

  // A sender with the same files and origins, and at least as much accepted.
  lemma MoreAccepted(s: Sender, t: Sender)
    requires SenderInv(s) && s.accepted <= t.accepted
    requires t.prefix == s.prefix && t.prefixes == s.prefixes && t.dir == s.dir && t.dumpNum >= s.dumpNum
    requires t.origins == s.origins && t.failedOrigins == s.failedOrigins
    ensures SenderInv(t) && StoredBy(s) <= StoredBy(t)
  {
    hide D.Read, FileReqs, WasSent, SentTold;
    forall f | f in t.dir.sent ensures SentTold(t, f) {
      SameSent(s, t, f);
    }
  }

  // ---------------------------------------------------------------- a replay

  lemma ReplayKeeps(s: Sender, l: D.Label, m: Message)
    requires SenderInv(s) && CanWork(s, Spooled(l))
    ensures var t := WorkOn(s, Spooled(l), m);
            SenderInv(t) && StoredBy(s) <= StoredBy(t) && s.accepted <= t.accepted && t.spoiled == s.spoiled
  {
    var t := WorkOn(s, Spooled(l), m);
    ReplayNames(s, l, m);
    ReplayTold(s, l, m);
    ReplayStores(s, l, m);
  }

  lemma ReplayNames(s: Sender, l: D.Label, m: Message)
    requires SenderInv(s) && CanWork(s, Spooled(l))
    ensures var t := WorkOn(s, Spooled(l), m);
            && DumpName.Unused(t.prefix, t.dumpNum, D.Names(t.dir)) && DumpName.OfPrefixes(D.Names(t.dir), t.prefixes)
            && t.dir.pending.Keys !! t.dir.failed.Keys
  {
    hide DumpName.Unused, D.Read, D.HasPayload, DumpName.IsClientError, Taken, Carried, SentTold;
    var t := WorkOn(s, Spooled(l), m);
    assert D.Names(t.dir) <= D.Names(s.dir);
    DumpName.FewerUnused(s.prefix, s.dumpNum, D.Names(s.dir), D.Names(t.dir));
  }

  lemma ReplayTold(s: Sender, l: D.Label, m: Message)
    requires SenderInv(s) && CanWork(s, Spooled(l))
    ensures var t := WorkOn(s, Spooled(l), m);
            forall f | f in t.dir.sent :: SentTold(t, f)
  {
    hide DumpName.Unused, D.Read, D.HasPayload, DumpName.IsClientError, DumpName.OfPrefixes, D.TellsAs, Reqs;
    var t := WorkOn(s, Spooled(l), m);
    forall f | f in t.dir.sent ensures SentTold(t, f) {
      if f in s.dir.sent {
        assert SentTold(s, f);
      }
    }
  }

  // A file that tells is removed only when what it tells has been taken.
  lemma GoneIsTaken(s: Sender, f: string)
    requires SenderInv(s)
    ensures D.Enabled(s.dir, D.Removed(f)) ==> ToldBy(s.origins, s.dir.pending, f) <= s.accepted
    ensures D.Enabled(s.dir, D.Dropped(f)) ==> ToldBy(s.failedOrigins, s.dir.failed, f) <= s.accepted
  {
    hide DumpName.Unused, DumpName.OfPrefixes, Reqs;
    if f in s.dir.sent {
      assert SentTold(s, f);
    }
  }

  lemma ReplayStores(s: Sender, l: D.Label, m: Message)
    requires SenderInv(s) && CanWork(s, Spooled(l))
    ensures StoredBy(s) <= StoredBy(WorkOn(s, Spooled(l), m)) && s.accepted <= WorkOn(s, Spooled(l), m).accepted
  {
    hide DumpName.Unused, D.Read, D.HasPayload, DumpName.IsClientError, DumpName.OfPrefixes, Reqs, FileReqs;
    hide SentTold, Tells;
    match l {
      case Moved(f) => MoveLosesExactly(s, f, m);
      case Removed(f) =>
        GoneIsTaken(s, f);
        FileReqsSplit(s.origins, s.dir.pending, f);
      case Dropped(f) =>
        GoneIsTaken(s, f);
        FileReqsSplit(s.failedOrigins, s.dir.failed, f);
      case _ =>
    }
  }

  // ---------------------------------------------------------------- what a server has taken

  /** A server has taken no more than what was sent to it and arrived, batch by batch and file by file. */
  lemma TakenExactly(s: Sender, l: SenderLabel, m: Message)
    requires CanWork(s, l)
    ensures WorkOn(s, l, m).accepted - s.accepted
         <= match l
            case SendOk => Reqs(s.worker.b)
            case SendFail(_, arrived, _) => if arrived then Reqs(s.worker.b) else {}
            case Spooled(Sent(f)) => ToldBy(s.origins, s.dir.pending, f)
            case Spooled(Retried(f)) => ToldBy(s.failedOrigins, s.dir.failed, f)
            case InVain(f, failed, arrived) =>
              if !arrived then {}
              else if failed then ToldBy(s.failedOrigins, s.dir.failed, f)
              else ToldBy(s.origins, s.dir.pending, f)
            case _ => {}
    ensures l.SendOk? ==> Reqs(s.worker.b) <= WorkOn(s, l, m).accepted
  {
    hide ReadsBack, DumpText, D.Apply, D.Enabled, Reqs, Carried, ToldBy, DumpName.FileName;
  }

  // ---------------------------------------------------------------- every step

  /** No step of a sender, of its dumper's replays, or of a process's end and start, loses what the sender owes for. */
  lemma WorkKeeps(s: Sender, l: SenderLabel, m: Message)
    requires SenderInv(s) && CanWork(s, l)
    ensures var t := WorkOn(s, l, m);
            SenderInv(t) && CoveredBy(s) <= CoveredBy(t) && s.accepted <= t.accepted && s.spoiled <= t.spoiled
  {
    hide SenderInv, StoredBy, Reqs, ToldBy, DumpText, ReadsBack, D.Enabled, D.Apply, Carried, Taken;
    var t := WorkOn(s, l, m);
    match l {
      case DumpOk =>
        hide Dumped, DumpedWhole;
        var u := DumpedWhole(s, s.worker.b, m, s.worker.status, s.worker.response);
        WholeDumpKeeps(s, s.worker.b, m, s.worker.status, s.worker.response);
        MoreAccepted(u, t);
      case DumpFail(partly) =>
        if partly.Some? {
          DumpKeeps(s, s.worker.b, m, s.worker.status, partly.value);
          SameSpoiled(s, s.worker.b, m, s.worker.status, partly.value);
          hide Dumped;
          MoreAccepted(Dumped(s, s.worker.b, m, s.worker.status, partly.value), t);
        } else {
          MoreAccepted(s, t);
        }
      case Spooled(dl) => ReplayKeeps(s, dl, m);
      case _ => MoreAccepted(s, t);
    }
  }

  lemma RestartKeeps(s: Sender)
    requires SenderInv(s)
    ensures SenderInv(Restarted(s)) && StoredBy(Restarted(s)) == StoredBy(s)
  {
    hide D.Read, FileReqs, DumpName.Unused;
    var t := Restarted(s);
    assert D.Names(t.dir) <= D.Names(s.dir);
    DumpName.FewerUnused(s.prefix, s.dumpNum, D.Names(s.dir), D.Names(t.dir));
  }

  lemma StartKeeps(s: Sender, prefix: string)
    requires SenderInv(s) && |prefix| == 14 && prefix !in s.prefixes
    ensures SenderInv(WithPrefix(s, prefix)) && StoredBy(WithPrefix(s, prefix)) == StoredBy(s)
  {
    hide D.Read, FileReqs, DumpName.Unused, SentTold;
    var t := WithPrefix(s, prefix);
    DumpName.NewPrefix(prefix, s.prefixes, D.Names(s.dir));
    forall f | f in t.dir.sent ensures SentTold(t, f) {
      SameSent(s, t, f);
    }
  }

  lemma NewKeeps(hasJournal: bool)
    ensures SenderInv(NewSender(hasJournal)) && CoveredBy(NewSender(hasJournal)) == {}
  {
  }
}
